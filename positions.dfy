/**
 * The position resolver: where a player sits relative to the dealer.
 *
 * Both lookups use "index of the first match, or -1", and the player is then
 * classified by comparing indices, in a fixed order: Button, SB, BB, Other.
 * The modulo is taken of `dealerIndex + 1` and `dealerIndex + 2`, which are
 * never negative, so Dafny's `%` agrees with the host language's there. With
 * no players both lookups give -1 and the Button check answers before any
 * `%` is taken (`NoPlayersIsButton`); the guard `n != 0` only keeps Dafny's
 * `%` defined on that path.
 */
module Positions {
  import opened Types

  /** Index of the first element of `s` satisfying `p`, or -1 if there is none. */
  function FindIndex<T>(s: seq<T>, p: T -> bool): (r: int)
    ensures -1 <= r < |s|
    ensures r >= 0 ==> p(s[r]) && forall j :: 0 <= j < r ==> !p(s[j])
    ensures r == -1 <==> forall j :: 0 <= j < |s| ==> !p(s[j])
  {
    if |s| == 0 then -1
    else if p(s[0]) then 0
    else
      var k := FindIndex(s[1..], p);
      assert forall j :: 1 <= j < |s| ==> s[j] == s[1..][j - 1];
      if k == -1 then -1 else k + 1
  }

  function PlayerIndex(players: seq<Player>, playerId: int): int
  {
    FindIndex(players, (pl: Player) => pl.id == playerId)
  }

  function DealerIndex(players: seq<Player>, dealerSeat: int): int
  {
    FindIndex(players, (pl: Player) => pl.seat == dealerSeat)
  }

  lemma FirstPlayerWithId(players: seq<Player>, playerId: int, i: int)
    requires 0 <= i < |players| && players[i].id == playerId
    requires forall j :: 0 <= j < i ==> players[j].id != playerId
    ensures PlayerIndex(players, playerId) == i
  {
  }

  lemma FirstPlayerOnSeat(players: seq<Player>, seat: int, i: int)
    requires 0 <= i < |players| && players[i].seat == seat
    requires forall j :: 0 <= j < i ==> players[j].seat != seat
    ensures DealerIndex(players, seat) == i
  {
  }

  /** The position of `playerId`, decided by index comparisons in source order. */
  function PlayerPosition(players: seq<Player>, dealerSeat: int, playerId: int): Position
  {
    var playerIndex := PlayerIndex(players, playerId);
    var dealerIndex := DealerIndex(players, dealerSeat);
    var n := |players|;
    if playerIndex == dealerIndex then Button
    else if n != 0 && playerIndex == (dealerIndex + 1) % n then SB
    else if n != 0 && playerIndex == (dealerIndex + 2) % n then BB
    else Other
  }

  /** Reference classification by clockwise distance from the button. */
  function OffsetPosition(offset: int): Position
  {
    if offset == 0 then Button
    else if offset == 1 then SB
    else if offset == 2 then BB
    else Other
  }

  /** When both the player and the dealer seat are found, the position is the
      player's clockwise distance from the dealer, modulo the table size. */
  lemma PositionByOffset(players: seq<Player>, dealerSeat: int, playerId: int)
    requires PlayerIndex(players, playerId) >= 0
    requires DealerIndex(players, dealerSeat) >= 0
    ensures PlayerPosition(players, dealerSeat, playerId)
         == OffsetPosition((PlayerIndex(players, playerId) - DealerIndex(players, dealerSeat)) % |players|)
  {
    var p := PlayerIndex(players, playerId);
    var d := DealerIndex(players, dealerSeat);
    var n := |players|;
    var off := (p - d) % n;
    ModOffset(p, d, n);
    if p == d {
      assert off == 0;
    } else if p == (d + 1) % n {
      assert off == 1;
    } else if p == (d + 2) % n {
      assert off == 2;
    } else {
      assert off != 0 && off != 1 && off != 2;
    }
  }

  /** The residues that the comparisons of `PlayerPosition` depend on. */
  lemma ModOffset(p: int, d: int, n: int)
    requires 0 <= p < n && 0 <= d < n
    ensures (p - d) % n == if p >= d then p - d else p - d + n
    ensures (d + 1) % n == if d + 1 < n then d + 1 else 0
    ensures (d + 2) % n == if d + 2 < n then d + 2 else if d + 2 < 2 * n then d + 2 - n else 0
  {
    if p >= d { ModShift(p - d, 0, n); } else { ModShift(p - d, -1, n); }
    if d + 1 < n { ModShift(d + 1, 0, n); } else { ModShift(d + 1, 1, n); }
    if d + 2 < n { ModShift(d + 2, 0, n); }
    else if d + 2 < 2 * n { ModShift(d + 2, 1, n); }
    else { ModShift(d + 2, 2, n); }
  }

  /** `x % n` for an `x` that lies `q` table-lengths above `[0, n)`. */
  lemma ModShift(x: int, q: int, n: int)
    requires -1 <= q <= 2
    requires 0 <= x - q * n < n
    ensures x % n == x - q * n
  {
  }

  /** A player who is not at the table is the Button exactly when the dealer
      seat is empty too (both lookups give -1), and Other otherwise. */
  lemma MissingPlayerPosition(players: seq<Player>, dealerSeat: int, playerId: int)
    requires PlayerIndex(players, playerId) == -1
    ensures PlayerPosition(players, dealerSeat, playerId)
         == if DealerIndex(players, dealerSeat) == -1 then Button else Other
  {
  }

  /** An empty table: both lookups fail, so everybody is the Button. */
  lemma NoPlayersIsButton(dealerSeat: int, playerId: int)
    ensures PlayerPosition([], dealerSeat, playerId) == Button
  {
  }

  /** With no player on the dealer seat, the first player is SB, the second BB,
      and everybody else Other. */
  lemma MissingDealerPosition(players: seq<Player>, dealerSeat: int, playerId: int)
    requires PlayerIndex(players, playerId) >= 0
    requires DealerIndex(players, dealerSeat) == -1
    ensures PlayerPosition(players, dealerSeat, playerId)
         == OffsetPosition(PlayerIndex(players, playerId) + 1)
  {
    var n := |players|;
    assert 0 % n == 0;
    if n >= 2 { assert 1 % n == 1; } else { assert 1 % n == 0; }
  }

  /** Two players and a dealer seat that is found: nobody is BB. */
  lemma HeadsUpHasNoBigBlind(players: seq<Player>, dealerSeat: int, playerId: int)
    requires |players| == 2
    requires DealerIndex(players, dealerSeat) >= 0
    ensures PlayerPosition(players, dealerSeat, playerId) != BB
  {
    if PlayerIndex(players, playerId) >= 0 {
      PositionByOffset(players, dealerSeat, playerId);
    } else {
      MissingPlayerPosition(players, dealerSeat, playerId);
    }
  }

  /** Two players and an empty dealer seat: the second player is BB. */
  lemma HeadsUpWithoutDealerHasBigBlind(players: seq<Player>, dealerSeat: int)
    requires |players| == 2 && players[0].id != players[1].id
    requires DealerIndex(players, dealerSeat) == -1
    ensures PlayerPosition(players, dealerSeat, players[1].id) == BB
  {
    MissingDealerPosition(players, dealerSeat, players[1].id);
  }

  /** Three seats 1, 2, 3: with the dealer on seat 1 the players on seats 2
      and 3 are SB and BB; with the dealer on seat 3, seat 1 wraps round to SB. */
  lemma ThreeSeatTable(a: Player, b: Player, c: Player)
    requires a.seat == 1 && b.seat == 2 && c.seat == 3
    requires a.id != b.id && b.id != c.id && a.id != c.id
    ensures PlayerPosition([a, b, c], 1, a.id) == Button
    ensures PlayerPosition([a, b, c], 1, b.id) == SB
    ensures PlayerPosition([a, b, c], 1, c.id) == BB
    ensures PlayerPosition([a, b, c], 3, a.id) == SB
    ensures PlayerPosition([a, b, c], 3, b.id) == BB
    ensures PlayerPosition([a, b, c], 3, c.id) == Button
  {
    var s := [a, b, c];
    FirstPlayerWithId(s, a.id, 0);
    FirstPlayerWithId(s, b.id, 1);
    FirstPlayerWithId(s, c.id, 2);
    FirstPlayerOnSeat(s, 1, 0);
    FirstPlayerOnSeat(s, 3, 2);
  }
}
