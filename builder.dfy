/**
 * The hand-history builder: one object that owns a `HandRecord` and grows it
 * in place. Players, rounds and pots are only ever appended, an action is
 * appended to the first round with the given id, and adding a pot rewrites
 * the pot's win shares with the settlement of each listed player.
 */
module Builder {
  import opened Types
  import opened Positions
  import opened Settlement

  class OpenHandHistory {
    var ohh: HandRecord

    constructor (config: Config)
      ensures ohh == HandRecord(config, [], [], [])
    {
      ohh := HandRecord(config, [], [], []);
    }

    /** Appends a player at the end; the earlier players keep their order. */
    method AddPlayer(player: Player)
      modifies this
      ensures ohh.players == old(ohh.players) + [player]
      ensures ohh.config == old(ohh.config) && ohh.rounds == old(ohh.rounds) && ohh.pots == old(ohh.pots)
    {
      ohh := ohh.(players := ohh.players + [player]);
    }

    /** Appends a round at the end; the earlier rounds keep their order. */
    method AddRound(round: Round)
      modifies this
      ensures ohh.rounds == old(ohh.rounds) + [round]
      ensures ohh.config == old(ohh.config) && ohh.players == old(ohh.players) && ohh.pots == old(ohh.pots)
    {
      ohh := ohh.(rounds := ohh.rounds + [round]);
    }

    /** Appends `action` to the first round whose id is `roundId`; with no such
        round the record is left as it was. */
    method AddActionToRound(roundId: int, action: Action)
      modifies this
      ensures (forall j :: 0 <= j < |old(ohh.rounds)| ==> old(ohh.rounds)[j].id != roundId) ==> ohh == old(ohh)
      ensures ohh.config == old(ohh.config) && ohh.players == old(ohh.players) && ohh.pots == old(ohh.pots)
      ensures |ohh.rounds| == |old(ohh.rounds)|
      ensures forall j :: 0 <= j < |ohh.rounds| ==>
        ohh.rounds[j] ==
          if old(ohh.rounds)[j].id == roundId && forall m :: 0 <= m < j ==> old(ohh.rounds)[m].id != roundId
          then old(ohh.rounds)[j].(actions := old(ohh.rounds)[j].actions + [action])
          else old(ohh.rounds)[j]
    {
      var i := FindIndex(ohh.rounds, (r: Round) => r.id == roundId);
      if i >= 0 {
        var round := ohh.rounds[i];
        ohh := ohh.(rounds := ohh.rounds[i := round.(actions := round.actions + [action])]);
      }
    }

    /** `calculateWinningAmount(playerId)`: the rounds loop, then the pots, then
        the blind of the player's position. */
    method CalculateWinningAmount(playerId: int) returns (totalWinnings: int)
      ensures totalWinnings == WinningAmount(ohh, playerId)
    {
      totalWinnings := 0;
      var playerPosition := PlayerPosition(ohh.players, ohh.config.dealerSeat, playerId);
      var rounds := ohh.rounds;
      for i := 0 to |rounds|
        invariant totalWinnings == RoundsNet(playerId, rounds[..i])
      {
        var round := rounds[i];
        var roundWinnings := 0;
        for j := 0 to |round.actions|
          invariant roundWinnings == RoundNetOver(playerId, round.actions[..j], round)
        {
          var action := round.actions[j];
          if action.playerId == playerId {
            if IsWager(action.kind) {
              roundWinnings := roundWinnings - AmountOrZero(action);
            }
          } else if action.kind == Fold {
            roundWinnings := roundWinnings + Contribution(action.playerId, round.actions);
          }
          assert round.actions[..j + 1][..j] == round.actions[..j];
        }
        assert round.actions[..|round.actions|] == round.actions;
        assert rounds[..i + 1][..i] == rounds[..i];
        totalWinnings := totalWinnings + roundWinnings;
      }
      assert rounds[..|rounds|] == rounds;
      totalWinnings := totalWinnings + PotWinnings(playerId, ohh.pots);
      if playerPosition == SB {
        totalWinnings := totalWinnings - ohh.config.smallBlindAmount;
      } else if playerPosition == BB {
        totalWinnings := totalWinnings - ohh.config.bigBlindAmount;
      }
    }

    /** The `map` over a pot's win shares: each share's amount becomes the
        settlement of its player against the current record. */
    method SettleWins(wins: seq<PlayerWin>) returns (settled: seq<PlayerWin>)
      ensures |settled| == |wins|
      ensures forall k :: 0 <= k < |wins| ==>
        settled[k] == PlayerWin(wins[k].playerId, WinningAmount(ohh, wins[k].playerId))
    {
      settled := [];
      for k := 0 to |wins|
        invariant |settled| == k
        invariant forall m :: 0 <= m < k ==>
          settled[m] == PlayerWin(wins[m].playerId, WinningAmount(ohh, wins[m].playerId))
      {
        var amount := CalculateWinningAmount(wins[k].playerId);
        settled := settled + [wins[k].(winAmount := amount)];
      }
    }

    /** Appends `pot` and replaces each of its win shares with the settlement of
        that entry's player, computed with the pot as supplied already in the
        list; that is the player's settlement before the pot plus the share of
        their first entry in the supplied pot. */
    method AddPot(pot: Pot)
      modifies this
      ensures ohh.config == old(ohh.config) && ohh.players == old(ohh.players) && ohh.rounds == old(ohh.rounds)
      ensures |ohh.pots| == |old(ohh.pots)| + 1
      ensures ohh.pots[..|old(ohh.pots)|] == old(ohh.pots)
      ensures var added := ohh.pots[|old(ohh.pots)|];
        added.rake == pot.rake && added.number == pot.number && added.amount == pot.amount
        && |added.playerWins| == |pot.playerWins|
      ensures forall k :: 0 <= k < |pot.playerWins| ==>
        ohh.pots[|old(ohh.pots)|].playerWins[k].playerId == pot.playerWins[k].playerId
      ensures forall k :: 0 <= k < |pot.playerWins| ==>
        ohh.pots[|old(ohh.pots)|].playerWins[k].winAmount
          == WinningAmount(old(ohh).(pots := old(ohh.pots) + [pot]), pot.playerWins[k].playerId)
      ensures forall k :: 0 <= k < |pot.playerWins| ==>
        ohh.pots[|old(ohh.pots)|].playerWins[k].winAmount
          == WinningAmount(old(ohh), pot.playerWins[k].playerId)
             + FirstWinAmount(pot.playerWins[k].playerId, pot.playerWins)
    {
      ghost var before := ohh;
      ohh := ohh.(pots := ohh.pots + [pot]);
      var settled := SettleWins(pot.playerWins);
      var last := |ohh.pots| - 1;
      ohh := ohh.(pots := ohh.pots[last := ohh.pots[last].(playerWins := settled)]);
      forall k | 0 <= k < |pot.playerWins|
        ensures settled[k].winAmount
             == WinningAmount(before, pot.playerWins[k].playerId)
                + FirstWinAmount(pot.playerWins[k].playerId, pot.playerWins)
      {
        WinningAmountAfterPot(before, pot, pot.playerWins[k].playerId);
      }
    }
  }

  /** A client: the "complex hand history" scenario. The action labels are the
      upper-case "RAISE" and "CALL", which match none of Bet, Raise and Call,
      so the only money the settlement sees is the pot share itself. */
  method ComplexHandScenario(config: Config)
    requires config.dealerSeat == 1
  {
    var ohh := new OpenHandHistory(config);
    var p1 := Player("Player 1", 1, 1000, 1, None);
    var p2 := Player("Player 2", 2, 1000, 2, None);
    ohh.AddPlayer(p1);
    ohh.AddPlayer(p2);
    ohh.AddRound(Round(1, None, "PREFLOP", []));
    var raise := Action(1, 1, Unrecognized("RAISE"), Some(100), None);
    var call := Action(2, 2, Unrecognized("CALL"), Some(100), None);
    ohh.AddActionToRound(1, raise);
    ohh.AddActionToRound(1, call);
    ohh.AddActionToRound(7, call);
    assert ohh.ohh.rounds[0].actions == [raise, call];
    ghost var beforePot := ohh.ohh;
    ohh.AddPot(Pot(None, 1, 200, [PlayerWin(1, 200)]));
    assert |ohh.ohh.players| == 2 && |ohh.ohh.rounds| == 1 && |ohh.ohh.pots| == 1;

    FirstPlayerWithId(beforePot.players, 1, 0);
    FirstPlayerOnSeat(beforePot.players, 1, 0);
    assert beforePot.rounds == [Round(1, None, "PREFLOP", [raise, call])];
    assert Quiet(1, beforePot.rounds);
    IdleSettlement(beforePot, 1);
    assert WinningAmount(beforePot, 1) == 0;
    assert ohh.ohh.pots[0].playerWins == [PlayerWin(1, 200)];
  }
}
