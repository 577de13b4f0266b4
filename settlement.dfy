/**
 * Chip settlement: the arithmetic behind `calculatePotContribution` and
 * `calculateWinningAmount`, as pure functions over a `HandRecord`.
 *
 * The folds of the source (a `reduce` over a round's actions, a running sum
 * over rounds, a `reduce` over pots) are written as recursion on the last
 * element, so that a prefix of a list is folded exactly as the source's loops
 * have folded it so far. The fold over a round's actions is paired with an
 * independent reference (filter the relevant actions, then sum from the
 * front) and a lemma that connects the two; the folds over rounds and over
 * pots are characterised by lemmas instead (`QuietRoundsNetZero`,
 * `PotWinningsWithoutEntry`, `WinningAmountAfterPot`).
 *
 * Bet, Raise and Call amounts are all plain increments here, as in the
 * source; no action is read as a "raise to" target.
 */
module Settlement {
  import opened Types
  import opened Positions

  /** The kinds whose amount moves chips: Bet, Raise and Call. */
  predicate IsWager(kind: ActionKind)
  {
    kind == Bet || kind == Raise || kind == Call
  }

  /** Read from a label, a kind is a wager exactly when the label is one of the
      strings the source compares against, and a Fold exactly when it is "Fold". */
  lemma LabelComparisons(text: string)
    ensures IsWager(KindOfLabel(text)) <==> (text == "Bet" || text == "Raise" || text == "Call")
    ensures KindOfLabel(text) == Fold <==> text == "Fold"
  {
  }

  /** `action.amount || 0`: a missing amount counts as zero. */
  function AmountOrZero(a: Action): int
  {
    match a.amount
    case Some(x) => x
    case None => 0
  }

  /** What one action adds to `playerId`'s contribution. */
  function Stake(playerId: int, a: Action): int
  {
    if a.playerId == playerId && IsWager(a.kind) then AmountOrZero(a) else 0
  }

  /** `calculatePotContribution`: the left fold of `Stake` over the actions. */
  function Contribution(playerId: int, actions: seq<Action>): int
    decreases |actions|
  {
    if actions == [] then 0
    else Contribution(playerId, actions[..|actions| - 1]) + Stake(playerId, actions[|actions| - 1])
  }

  // ---------------------------------------------------------------------------
  // Reference definition of a contribution: keep the player's wagers, add up.

  /** The Bet, Raise and Call actions of `playerId`, in order. */
  function Wagers(playerId: int, actions: seq<Action>): (w: seq<Action>)
    ensures |w| <= |actions|
    ensures forall k :: 0 <= k < |w| ==> w[k].playerId == playerId && IsWager(w[k].kind)
    ensures forall a :: a in w ==> a in actions
  {
    if actions == [] then []
    else
      var head := if actions[0].playerId == playerId && IsWager(actions[0].kind) then [actions[0]] else [];
      head + Wagers(playerId, actions[1..])
  }

  /** Every Bet, Raise and Call action of `playerId` is kept, as often as it
      occurs, and nothing else is. */
  lemma {:induction false} WagersKeepsEveryWager(playerId: int, actions: seq<Action>)
    ensures forall a :: multiset(Wagers(playerId, actions))[a]
                        == if a.playerId == playerId && IsWager(a.kind) then multiset(actions)[a] else 0
  {
    if actions != [] {
      WagersKeepsEveryWager(playerId, actions[1..]);
      assert actions == [actions[0]] + actions[1..];
    }
  }

  function SumAmounts(actions: seq<Action>): int
  {
    if actions == [] then 0 else AmountOrZero(actions[0]) + SumAmounts(actions[1..])
  }

  lemma {:induction false} WagersAppend(playerId: int, xs: seq<Action>, a: Action)
    ensures Wagers(playerId, xs + [a])
         == Wagers(playerId, xs) + (if a.playerId == playerId && IsWager(a.kind) then [a] else [])
  {
    if xs != [] {
      assert (xs + [a])[1..] == xs[1..] + [a];
      WagersAppend(playerId, xs[1..], a);
    }
  }

  lemma {:induction false} SumAmountsAppend(xs: seq<Action>, ys: seq<Action>)
    ensures SumAmounts(xs + ys) == SumAmounts(xs) + SumAmounts(ys)
  {
    if xs != [] {
      assert (xs + ys)[0] == xs[0] && (xs + ys)[1..] == xs[1..] + ys;
      SumAmountsAppend(xs[1..], ys);
    } else {
      assert xs + ys == ys;
    }
  }

  /** A round contribution is the sum of the amounts of exactly the player's
      Bet, Raise and Call actions; other kinds and other players add nothing. */
  lemma {:induction false} ContributionIsSumOfWagers(playerId: int, actions: seq<Action>)
    ensures Contribution(playerId, actions) == SumAmounts(Wagers(playerId, actions))
  {
    if actions != [] {
      var init, last := actions[..|actions| - 1], actions[|actions| - 1];
      assert actions == init + [last];
      ContributionIsSumOfWagers(playerId, init);
      WagersAppend(playerId, init, last);
      var tail := if last.playerId == playerId && IsWager(last.kind) then [last] else [];
      SumAmountsAppend(Wagers(playerId, init), tail);
    }
  }

  /** Every amount present in `actions` is non-negative. */
  predicate AmountsNonNegative(actions: seq<Action>)
  {
    forall k :: 0 <= k < |actions| ==> AmountOrZero(actions[k]) >= 0
  }

  lemma {:induction false} ContributionNonNegative(playerId: int, actions: seq<Action>)
    requires AmountsNonNegative(actions)
    ensures Contribution(playerId, actions) >= 0
  {
    if actions != [] {
      ContributionNonNegative(playerId, actions[..|actions| - 1]);
    }
  }

  /** Folding two consecutive pieces of a log is adding their folds. */
  lemma {:induction false} ContributionAppend(playerId: int, xs: seq<Action>, ys: seq<Action>)
    ensures Contribution(playerId, xs + ys) == Contribution(playerId, xs) + Contribution(playerId, ys)
  {
    if ys != [] {
      var init := ys[..|ys| - 1];
      assert (xs + ys)[..|xs + ys| - 1] == xs + init;
      assert (xs + ys)[|xs + ys| - 1] == ys[|ys| - 1];
      ContributionAppend(playerId, xs, init);
    } else {
      assert xs + ys == xs;
    }
  }

  /** Contributions only accumulate: extending the log by actions with
      non-negative amounts never lowers anybody's contribution. */
  lemma ContributionGrowsWithLog(playerId: int, xs: seq<Action>, ys: seq<Action>)
    requires AmountsNonNegative(ys)
    ensures Contribution(playerId, xs) <= Contribution(playerId, xs + ys)
  {
    ContributionAppend(playerId, xs, ys);
    ContributionNonNegative(playerId, ys);
  }

  // ---------------------------------------------------------------------------
  // One round of calculateWinningAmount.

  /** The change one action makes to `roundWinnings` for `playerId`: the
      player's own wagers are paid out, and each Fold by another player brings
      in that player's whole contribution to the same round. */
  function ActionNet(playerId: int, a: Action, round: Round): int
  {
    if a.playerId == playerId then
      if IsWager(a.kind) then -AmountOrZero(a) else 0
    else if a.kind == Fold then Contribution(a.playerId, round.actions)
    else 0
  }

  /** `roundWinnings` after the inner loop has visited `actions`. */
  function RoundNetOver(playerId: int, actions: seq<Action>, round: Round): int
    decreases |actions|
  {
    if actions == [] then 0
    else RoundNetOver(playerId, actions[..|actions| - 1], round)
         + ActionNet(playerId, actions[|actions| - 1], round)
  }

  function RoundNet(playerId: int, round: Round): int
  {
    RoundNetOver(playerId, round.actions, round)
  }

  /** The Fold actions of players other than `playerId`, in order. */
  function OthersFolds(playerId: int, actions: seq<Action>): (f: seq<Action>)
    ensures |f| <= |actions|
    ensures forall k :: 0 <= k < |f| ==> f[k].playerId != playerId && f[k].kind == Fold
    ensures forall a :: a in f ==> a in actions
  {
    if actions == [] then []
    else
      var head := if actions[0].playerId != playerId && actions[0].kind == Fold then [actions[0]] else [];
      head + OthersFolds(playerId, actions[1..])
  }

  /** Every Fold action of another player is kept, as often as it occurs, and
      nothing else is. */
  lemma {:induction false} OthersFoldsKeepsEveryFold(playerId: int, actions: seq<Action>)
    ensures forall a :: multiset(OthersFolds(playerId, actions))[a]
                        == if a.playerId != playerId && a.kind == Fold then multiset(actions)[a] else 0
  {
    if actions != [] {
      OthersFoldsKeepsEveryFold(playerId, actions[1..]);
      assert actions == [actions[0]] + actions[1..];
    }
  }

  /** For each fold, the folding player's whole contribution to `round`. */
  function FoldCredit(folds: seq<Action>, round: Round): int
  {
    if folds == [] then 0
    else Contribution(folds[0].playerId, round.actions) + FoldCredit(folds[1..], round)
  }

  lemma {:induction false} OthersFoldsAppend(playerId: int, xs: seq<Action>, a: Action)
    ensures OthersFolds(playerId, xs + [a])
         == OthersFolds(playerId, xs) + (if a.playerId != playerId && a.kind == Fold then [a] else [])
  {
    if xs != [] {
      assert (xs + [a])[1..] == xs[1..] + [a];
      OthersFoldsAppend(playerId, xs[1..], a);
    }
  }

  lemma {:induction false} FoldCreditAppend(xs: seq<Action>, ys: seq<Action>, round: Round)
    ensures FoldCredit(xs + ys, round) == FoldCredit(xs, round) + FoldCredit(ys, round)
  {
    if xs != [] {
      assert (xs + ys)[0] == xs[0] && (xs + ys)[1..] == xs[1..] + ys;
      FoldCreditAppend(xs[1..], ys, round);
    } else {
      assert xs + ys == ys;
    }
  }

  /** A round's net for a player is what the other players' Fold actions bring
      in (each folder's whole contribution to the round, once per Fold action)
      minus the player's own Bet, Raise and Call amounts in the visited actions. */
  lemma {:induction false} RoundNetOverSplits(playerId: int, actions: seq<Action>, round: Round)
    ensures RoundNetOver(playerId, actions, round)
         == FoldCredit(OthersFolds(playerId, actions), round) - Contribution(playerId, actions)
  {
    if actions != [] {
      var init, last := actions[..|actions| - 1], actions[|actions| - 1];
      assert actions == init + [last];
      RoundNetOverSplits(playerId, init, round);
      OthersFoldsAppend(playerId, init, last);
      var tail := if last.playerId != playerId && last.kind == Fold then [last] else [];
      FoldCreditAppend(OthersFolds(playerId, init), tail, round);
      assert FoldCredit(tail, round) == if tail == [] then 0 else Contribution(last.playerId, round.actions);
    }
  }

  lemma RoundNetSplits(playerId: int, round: Round)
    ensures RoundNet(playerId, round)
         == FoldCredit(OthersFolds(playerId, round.actions), round) - Contribution(playerId, round.actions)
  {
    RoundNetOverSplits(playerId, round.actions, round);
  }

  // ---------------------------------------------------------------------------
  // The whole settlement.

  /** `totalWinnings` after the outer loop has visited `rounds`. */
  function RoundsNet(playerId: int, rounds: seq<Round>): int
    decreases |rounds|
  {
    if rounds == [] then 0
    else RoundsNet(playerId, rounds[..|rounds| - 1]) + RoundNet(playerId, rounds[|rounds| - 1])
  }

  /** `win_amount` of the first entry of `wins` for `playerId`, or 0. */
  function FirstWinAmount(playerId: int, wins: seq<PlayerWin>): (r: int)
    ensures (forall k :: 0 <= k < |wins| ==> wins[k].playerId != playerId) ==> r == 0
    ensures forall k :: 0 <= k < |wins| && wins[k].playerId == playerId
                        && (forall j :: 0 <= j < k ==> wins[j].playerId != playerId)
                        ==> r == wins[k].winAmount
  {
    var k := FindIndex(wins, (w: PlayerWin) => w.playerId == playerId);
    if k < 0 then 0 else wins[k].winAmount
  }

  /** The `reduce` over pots: the player's first win share in each pot. */
  function PotWinnings(playerId: int, pots: seq<Pot>): int
    decreases |pots|
  {
    if pots == [] then 0
    else PotWinnings(playerId, pots[..|pots| - 1]) + FirstWinAmount(playerId, pots[|pots| - 1].playerWins)
  }

  /** The blind a position pays: the small blind for SB, the big blind for BB. */
  function BlindCost(position: Position, config: Config): int
  {
    if position == SB then config.smallBlindAmount
    else if position == BB then config.bigBlindAmount
    else 0
  }

  function PositionOf(record: HandRecord, playerId: int): Position
  {
    PlayerPosition(record.players, record.config.dealerSeat, playerId)
  }

  /** `calculateWinningAmount(playerId)` over the record. */
  function WinningAmount(record: HandRecord, playerId: int): int
  {
    RoundsNet(playerId, record.rounds)
    + PotWinnings(playerId, record.pots)
    - BlindCost(PositionOf(record, playerId), record.config)
  }

  /** No pot names the player: the pot term is zero. */
  lemma {:induction false} PotWinningsWithoutEntry(playerId: int, pots: seq<Pot>)
    requires forall i, k :: 0 <= i < |pots| && 0 <= k < |pots[i].playerWins|
                            ==> pots[i].playerWins[k].playerId != playerId
    ensures PotWinnings(playerId, pots) == 0
  {
    if pots != [] {
      PotWinningsWithoutEntry(playerId, pots[..|pots| - 1]);
    }
  }

  /** The action neither is a wager of `playerId` nor a Fold by anybody else. */
  predicate QuietAction(playerId: int, a: Action)
  {
    (a.playerId == playerId ==> !IsWager(a.kind)) && (a.playerId != playerId ==> a.kind != Fold)
  }

  /** Every action of every round is quiet for `playerId`. */
  predicate Quiet(playerId: int, rounds: seq<Round>)
  {
    forall i, k :: 0 <= i < |rounds| && 0 <= k < |rounds[i].actions| ==>
      QuietAction(playerId, rounds[i].actions[k])
  }

  lemma {:induction false} QuietRoundNetZero(playerId: int, actions: seq<Action>, round: Round)
    requires forall k :: 0 <= k < |actions| ==> QuietAction(playerId, actions[k])
    ensures RoundNetOver(playerId, actions, round) == 0
  {
    if actions != [] {
      QuietRoundNetZero(playerId, actions[..|actions| - 1], round);
    }
  }

  lemma {:induction false} QuietRoundsNetZero(playerId: int, rounds: seq<Round>)
    requires Quiet(playerId, rounds)
    ensures RoundsNet(playerId, rounds) == 0
  {
    if rounds != [] {
      var init, last := rounds[..|rounds| - 1], rounds[|rounds| - 1];
      assert Quiet(playerId, init) by {
        forall i, k | 0 <= i < |init| && 0 <= k < |init[i].actions|
          ensures QuietAction(playerId, init[i].actions[k])
        {
          assert init[i] == rounds[i];
        }
      }
      QuietRoundsNetZero(playerId, init);
      QuietRoundNetZero(playerId, last.actions, last);
    }
  }

  /** A player who never wagers, whom no other player folds to, and who has no
      pot entry settles to minus the blind of their position: 0 on the Button
      or elsewhere, the small blind on SB, the big blind on BB. */
  lemma IdleSettlement(record: HandRecord, playerId: int)
    requires Quiet(playerId, record.rounds)
    requires forall i, k :: 0 <= i < |record.pots| && 0 <= k < |record.pots[i].playerWins|
                            ==> record.pots[i].playerWins[k].playerId != playerId
    ensures WinningAmount(record, playerId)
         == match PositionOf(record, playerId)
            case SB => -record.config.smallBlindAmount
            case BB => -record.config.bigBlindAmount
            case _ => 0
  {
    QuietRoundsNetZero(playerId, record.rounds);
    PotWinningsWithoutEntry(playerId, record.pots);
  }

  /** Appending a pot changes a player's settlement by exactly the win share
      of the player's first entry in that pot, and by nothing else. */
  lemma WinningAmountAfterPot(record: HandRecord, pot: Pot, playerId: int)
    ensures WinningAmount(record.(pots := record.pots + [pot]), playerId)
         == WinningAmount(record, playerId) + FirstWinAmount(playerId, pot.playerWins)
  {
    var pots := record.pots + [pot];
    assert pots[..|pots| - 1] == record.pots;
  }

  /** A player who never acts is still credited with the contribution of every
      other player who folds: with one bet of 10 that is then folded, both
      bystanders settle 10 up (less their blind). */
  lemma BystandersCollectFolds(config: Config, p1: Player, p2: Player, p3: Player)
    requires p1.id == 1 && p2.id == 2 && p3.id == 3
    requires p1.seat == 1 && p2.seat == 2 && p3.seat == 3 && config.dealerSeat == 1
    ensures var round := Round(1, None, "Preflop",
                               [Action(1, 2, Bet, Some(10), None), Action(2, 2, Fold, None, None)]);
            var record := HandRecord(config, [p1, p2, p3], [round], []);
            WinningAmount(record, 1) == 10
            && WinningAmount(record, 3) == 10 - config.bigBlindAmount
            && WinningAmount(record, 2) == -10 - config.smallBlindAmount
  {
    var round := Round(1, None, "Preflop",
                       [Action(1, 2, Bet, Some(10), None), Action(2, 2, Fold, None, None)]);
    var players := [p1, p2, p3];
    var record := HandRecord(config, players, [round], []);
    FirstPlayerWithId(players, 1, 0);
    FirstPlayerWithId(players, 2, 1);
    FirstPlayerWithId(players, 3, 2);
    FirstPlayerOnSeat(players, 1, 0);
    var acts := round.actions;
    assert acts[..1] == [acts[0]] && acts[..1][..0] == [];
    assert Contribution(2, acts[..1]) == 10;
    assert Contribution(2, acts) == 10;
    assert Contribution(1, acts) == 0;
    assert RoundNetOver(1, acts[..1], round) == 0;
    assert RoundNet(1, round) == 10;
    assert Contribution(3, acts) == 0;
    assert RoundNetOver(3, acts[..1], round) == 0;
    assert RoundNet(3, round) == 10;
    assert RoundNetOver(2, acts[..1], round) == -10;
    assert RoundNet(2, round) == -10;
    assert [round][..0] == [];
    assert RoundsNet(1, [round]) == 10;
    assert PositionOf(record, 1) == Button;
    assert PositionOf(record, 2) == SB;
    assert PositionOf(record, 3) == BB;
  }
}
