/** The turn phases and the turn-order rules of `startTurn` / `endTurnInternal`:
    lose-turn skips and queued extra turns. */
module Turns {
  import opened Players

  datatype Phase =
    | Menu | Mapping
    | StartTurn | AfterRoll | Moving | Zooming
    | BeforeResolve | Resolving | AfterResolve
    | GameOver

  /** Mic Drop may only be played at the start of a turn or right after the
      roll: a subset of the phases in which the Decision button works, which
      leaves out both decision moments of a landing. */
  predicate MicDropWindow(phase: Phase): (w: bool)
    ensures w ==> DecisionAvailable(phase) && phase != BeforeResolve && phase != AfterResolve
  {
    phase == StartTurn || phase == AfterRoll
  }

  /** End Turn is honoured only at the start of a turn or after resolving. */
  predicate EndTurnAllowed(phase: Phase) {
    phase == StartTurn || phase == AfterResolve
  }

  /** The Decision Menu button is disabled while moving, zooming, resolving
      and after the game has ended. */
  predicate DecisionAvailable(phase: Phase) {
    !(phase == Moving || phase == Zooming || phase == Resolving || phase == GameOver)
  }

  /** Whose turn it is and the player records after a turn change. */
  datatype Rota = Rota(players: seq<Player>, turn: nat)

  /** Turn changes touch only flags and queues, never positions, cash or cards. */
  predicate SameHoldings(p: Player, q: Player) {
    p.pos == q.pos && p.cash == q.cash && p.bedroom == q.bedroom && p.oneHit == q.oneHit
  }

  predicate KeepsHoldings(ps: seq<Player>, qs: seq<Player>) {
    |ps| == |qs| && forall i :: 0 <= i < |ps| ==> SameHoldings(ps[i], qs[i])
  }

  /** The player records and turn index `startTurn()` leaves (outside GameOver):
      the current player's +1 flag is reset; a player due to lose a turn has
      the flag cleared and the turn passes on through `endTurnInternal(false)`.
      The chain stops because every skip clears one lose-turn flag. */
  function StartTurnSpec(ps: seq<Player>, t: nat): (r: Rota)
    requires t < |ps|
    ensures r.turn < |r.players| && KeepsHoldings(ps, r.players)
    ensures !r.players[r.turn].loseTurn && !r.players[r.turn].usedPlus1ThisTurn
    ensures LoseCount(r.players) <= LoseCount(ps)
    decreases LoseCount(ps), 1
  {
    if ps[t].loseTurn then
      var cleared := ps[t].(usedPlus1ThisTurn := false, loseTurn := false);
      LoseCountUpdate(ps, t, cleared);
      EndTurnSpec(ps[t := cleared], t, false)
    else
      var reset := ps[t].(usedPlus1ThisTurn := false);
      LoseCountUpdate(ps, t, reset);
      Rota(ps[t := reset], t)
  }

  /** The first half of `endTurnInternal(skipExtraQueue)`: a queued extra
      turn is used up (unless skipped) and the same player goes again;
      otherwise the turn index moves to the next player. Only the queue
      and the index change. */
  function PassTurn(ps: seq<Player>, t: nat, skipExtraQueue: bool): (r: Rota)
    requires t < |ps|
    ensures r.turn < |r.players| && KeepsHoldings(ps, r.players)
    ensures LoseCount(r.players) == LoseCount(ps)
  {
    if !skipExtraQueue && ps[t].extraTurnQueued > 0 then
      var used := ps[t].(extraTurnQueued := ps[t].extraTurnQueued - 1);
      LoseCountUpdate(ps, t, used);
      Rota(ps[t := used], t)
    else
      Rota(ps, (t + 1) % |ps|)
  }

  /** The player records and turn index `endTurnInternal(skipExtraQueue)`
      leaves: the turn is passed on as `PassTurn` says and then started. */
  function EndTurnSpec(ps: seq<Player>, t: nat, skipExtraQueue: bool): (r: Rota)
    requires t < |ps|
    ensures r.turn < |r.players| && KeepsHoldings(ps, r.players)
    ensures !r.players[r.turn].loseTurn && !r.players[r.turn].usedPlus1ThisTurn
    ensures LoseCount(r.players) <= LoseCount(ps)
    decreases LoseCount(ps), 2
  {
    var passed := PassTurn(ps, t, skipExtraQueue);
    StartTurnSpec(passed.players, passed.turn)
  }

  /** A queued extra turn keeps the same player, one fewer queued. */
  lemma ExtraTurnKeepsPlayer(ps: seq<Player>, t: nat)
    requires t < |ps| && ps[t].extraTurnQueued > 0 && !ps[t].loseTurn
    ensures var r := EndTurnSpec(ps, t, false);
            r.turn == t && r.players[t].extraTurnQueued == ps[t].extraTurnQueued - 1
  {
  }

  /** Without a queued extra turn (or when it is skipped) the turn passes to
      the next player modulo the player count. */
  lemma TurnPassesOn(ps: seq<Player>, t: nat, skipExtraQueue: bool)
    requires t < |ps| && (skipExtraQueue || ps[t].extraTurnQueued == 0)
    requires !ps[(t + 1) % |ps|].loseTurn
    ensures EndTurnSpec(ps, t, skipExtraQueue).turn == (t + 1) % |ps|
    ensures EndTurnSpec(ps, t, skipExtraQueue).players[t].extraTurnQueued == ps[t].extraTurnQueued
  {
  }

  /** A skipped turn clears the flag it consumed: some lose-turn flag is
      gone once the chain stops. */
  lemma SkipConsumesFlag(ps: seq<Player>, t: nat)
    requires t < |ps| && ps[t].loseTurn
    ensures LoseCount(StartTurnSpec(ps, t).players) < LoseCount(ps)
  {
    var cleared := ps[t].(usedPlus1ThisTurn := false, loseTurn := false);
    LoseCountUpdate(ps, t, cleared);
  }

  /** The seat after `t` in a ring of `n` seats. */
  lemma NextIndex(t: nat, n: nat)
    requires t < n
    ensures (t + 1) % n == if t + 1 < n then t + 1 else 0
  {
  }

  /** A Mic Drop on the player whose turn it is ends that turn at once but
      leaves their lose-turn flag set: when the next player is not also
      skipping, the dropped player still owes a lost turn afterwards. */
  lemma MicDropOnSelfCostsNextTurn(ps: seq<Player>, t: nat)
    requires 2 <= |ps| && t < |ps| && !ps[(t + 1) % |ps|].loseTurn
    ensures var r := EndTurnSpec(ps[t := ps[t].(loseTurn := true)], t, true);
            r.turn == (t + 1) % |ps| && r.players[t].loseTurn
  {
    var dropped := ps[t := ps[t].(loseTurn := true)];
    var n := (t + 1) % |ps|;
    NextIndex(t, |ps|);
    assert n != t && dropped[n] == ps[n];
    var reset := dropped[n].(usedPlus1ThisTurn := false);
    assert PassTurn(dropped, t, true) == Rota(dropped, n);
    assert StartTurnSpec(dropped, n).players == dropped[n := reset];
  }
}
