/** The running game: the shared state `state.game` / `state.phase` and the
    operations that change it. Dice, random indices and every dialog answer
    are parameters; the asynchronous flow of a turn is split into the stage
    methods the source awaits one after another. */
module Engine {
  import opened Wrappers
  import opened Track
  import opened Path
  import opened Cards
  import opened Decks
  import opened Players
  import opened Turns
  import opened Board

  /** A result of `rollD20()`. */
  type D20 = r: int | 1 <= r <= 20 witness 1

  /** The phase after `checkWinImmediate` looked at player `p`. */
  function AfterWinCheck(phase: Phase, p: Player): (r: Phase)
    ensures r == GameOver <==> phase == GameOver || Wins(p)
    ensures r != GameOver ==> r == phase
  {
    if phase != GameOver && Wins(p) then GameOver else phase
  }

  /** Who takes the $20 of a duel between `me` (roll `r1`) and `opp` (roll `r2`). */
  function DuelWinner(me: nat, opp: nat, r1: int, r2: int): (w: Option<nat>)
    requires me != opp
    ensures w.None? <==> r1 == r2
    ensures w == Some(me) <==> r1 > r2
    ensures w == Some(opp) <==> r2 > r1
  {
    if r1 == r2 then None else if r1 > r2 then Some(me) else Some(opp)
  }

  /** The total of a sequence of d20 rolls. */
  function SumOf(rolls: seq<D20>): (r: int)
    ensures |rolls| <= r <= 20 * |rolls|
  {
    if rolls == [] then 0 else SumOf(rolls[..|rolls| - 1]) + rolls[|rolls| - 1]
  }

  /** A player after a walk of `steps` in direction `dir` from its position:
      the destination and pass bonuses of `Walk`, nothing else changed. */
  function Moved(p: Player, steps: nat, dir: Dir, forks: seq<ForkChoice>): (q: Player)
    requires IsSpace(p.pos) && |forks| >= steps
    ensures q == p.(pos := q.pos, cash := q.cash) && IsSpace(q.pos) && q.cash >= p.cash
    ensures dir == CCW || !HasBedroom(p, PassS4Plus10) ==> q.cash == p.cash
  {
    var w := Walk(p.pos, steps, dir, None, forks);
    if dir == CCW then
      CCWNeverCrosses(p.pos, steps, None, forks);
      WithPasses(p, w.crossings).(pos := w.dest)
    else
      WithPasses(p, w.crossings).(pos := w.dest)
  }

  /** The player after the +1 prompt: a holder who has not used the card this
      turn and accepts moves exactly one space clockwise, collecting the pass
      bonus only when that step crosses from s3 (see `OneStepWalk`). */
  function Plus1Step(p: Player, accept: bool): (q: Player)
    requires IsSpace(p.pos)
    ensures IsSpace(q.pos) && q.cash >= p.cash
    ensures !(Plus1Offered(p) && accept) <==> q == p
    ensures q == p.(usedPlus1ThisTurn := q.usedPlus1ThisTurn, pos := q.pos, cash := q.cash)
  {
    if Plus1Offered(p) && accept then
      p.(usedPlus1ThisTurn := true, pos := NextCW(p.pos),
         cash := p.cash + (if p.pos == 3 then PassBonus(p) else 0))
    else p
  }

  datatype HookahGuess = Artist | Song | Both | Neither

  /** The Hookah Lounge prizes. */
  function HookahPrize(guess: HookahGuess): nat {
    match guess
    case Artist => 20
    case Song => 10
    case Both => 30
    case Neither => 0
  }

  datatype Loss = LoseMoney | LoseResource

  /** The Robbed dialog always offers the $10 loss, and the resource loss
      only to a player holding a Bedroom card. */
  predicate LossOffered(p: Player, loss: Loss) {
    loss == LoseMoney || |p.bedroom| > 0
  }

  datatype BlackmailAnswer = PayUp | LoseATurn

  /** The dice, random numbers and dialog answers one landing may consume. */
  datatype Inputs = Inputs(
    rolls: seq<D20>,            // d20 results, in the order they are rolled
    opponent: Option<nat>,      // the player picked in a dialog; None is Cancel
    guess: HookahGuess,
    loss: Option<Loss>,         // Robbed: None is Cancel
    answer: BlackmailAnswer,
    direction: Dir,             // The Russians
    pick: nat,                  // random card index, reduced modulo the hand size
    draws: seq<nat>)            // Fisher-Yates draws for a deck reshuffle

  /** The part of a game that a landing effect can change. */
  datatype Snapshot = Snapshot(players: seq<Player>, phase: Phase, stash: seq<BedroomCard>,
                               bedroomCards: seq<BedroomCard>, closetCards: seq<ClosetCard>,
                               oneHitCards: seq<OneHitCard>)

  /** A use of the Decision Moment menu. */
  datatype Decision =
    | Continue
    | PlayOneHit(who: Option<nat>, index: Option<nat>, target: Option<nat>, draws: seq<nat>)
    | UseBedroomSwap(target: Option<nat>)

  /** Players `a` and `b` trade positions; nothing else changes. */
  function SwapPos(ps: seq<Player>, a: nat, b: nat): (r: seq<Player>)
    requires a < |ps| && b < |ps| && a != b
    ensures |r| == |ps| && r[a].pos == ps[b].pos && r[b].pos == ps[a].pos
    ensures r[a] == ps[a].(pos := r[a].pos) && r[b] == ps[b].(pos := r[b].pos)
    ensures forall k :: 0 <= k < |ps| && k != a && k != b ==> r[k] == ps[k]
  {
    ps[a := ps[a].(pos := ps[b].pos)][b := ps[b].(pos := ps[a].pos)]
  }

  /** Some player other than `t` stands on `pos`. */
  predicate OccupiedBy(ps: seq<Player>, t: nat, pos: int) {
    exists j :: 0 <= j < |ps| && j != t && ps[j].pos == pos
  }

  /** The scan of `featOnTrack` from `start` finds `dest`: the first space,
      within 200 clockwise steps, that a player other than `t` occupies, or
      None when no space within those steps is occupied. */
  ghost predicate FeatScan(ps: seq<Player>, t: nat, start: int, dest: Option<int>)
    requires IsSpace(start)
  {
    match dest
    case Some(d) =>
      exists k :: 1 <= k <= 200 && IterCW(start, k) == d && OccupiedBy(ps, t, d)
                  && forall j :: 1 <= j < k ==> !OccupiedBy(ps, t, IterCW(start, j))
    case None => forall k :: 1 <= k <= 200 ==> !OccupiedBy(ps, t, IterCW(start, k))
  }

  /** The scan has one answer, so `FeatScan` pins the Feat on Track jump. */
  lemma FeatScanUnique(ps: seq<Player>, t: nat, start: int, d1: Option<int>, d2: Option<int>)
    requires IsSpace(start) && FeatScan(ps, t, start, d1) && FeatScan(ps, t, start, d2)
    ensures d1 == d2
  {
  }

  /** A swap undone by the same swap. */
  lemma SwapPosTwice(ps: seq<Player>, a: nat, b: nat)
    requires a < |ps| && b < |ps| && a != b
    ensures SwapPos(SwapPos(ps, a, b), a, b) == ps
  {
    var r := SwapPos(SwapPos(ps, a, b), a, b);
    assert forall k :: 0 <= k < |ps| ==> r[k] == ps[k];
  }

  class Game {
    var phase: Phase
    var players: seq<Player>
    var turn: nat
    var lastRoll: Option<D20>
    var bedroomDeck: Deck<BedroomCard>
    var closetDeck: Deck<ClosetCard>
    var oneHitDeck: Deck<OneHitCard>
    var kalifStash: seq<BedroomCard>
    /** The full Bedroom Shop and Closet sets, fixed when the game is made. */
    ghost var bedroomSet: multiset<BedroomCard>
    ghost var closetSet: multiset<ClosetCard>

    /** At least two players, a valid turn index, every token on the track and
        no debt; three separate decks, of which the Bedroom and Closet decks
        always hold exactly their full sets (a drawn card goes straight back). */
    ghost predicate Valid()
      reads this, bedroomDeck, closetDeck, oneHitDeck
    {
      && 2 <= |players| && turn < |players|
      && (forall i :: 0 <= i < |players| ==> Sound(players[i]))
      && bedroomDeck as object != closetDeck as object
      && bedroomDeck as object != oneHitDeck as object
      && closetDeck as object != oneHitDeck as object
      && multiset(bedroomDeck.cards) == bedroomSet && bedroomDeck.cards != []
      && multiset(closetDeck.cards) == closetSet && closetDeck.cards != []
    }

    /** `pickOtherPlayer(owner)`: any player but `owner`, or Cancel. */
    predicate OtherOrCancel(owner: nat, choice: Option<nat>)
      reads this
    {
      choice.None? || (choice.value < |players| && choice.value != owner)
    }

    /** `newGame()` for `count` chosen players; null when fewer than two are chosen. */
    static method NewGame(count: nat, bedroomDraws: seq<nat>, closetDraws: seq<nat>, oneHitDraws: seq<nat>)
      returns (g: Game?)
      requires count <= 6
      requires EnoughDraws(|BedroomShop|, bedroomDraws) && EnoughDraws(|Closet|, closetDraws)
      requires EnoughDraws(|OneHitWonders|, oneHitDraws)
      ensures count < 2 <==> g == null
      ensures g != null ==> fresh(g) && g.Valid() && g.phase == Phase.StartTurn && g.turn == 0
      ensures g != null ==> g.bedroomSet == multiset(BedroomShop) && g.closetSet == multiset(Closet)
      ensures g != null ==> |g.players| == count && g.players == seq(count, _ => NewPlayer())
      ensures g != null ==> g.lastRoll == None && g.kalifStash == []
      ensures g != null ==> g.bedroomDeck.cards == Shuffled(BedroomShop, bedroomDraws)
      ensures g != null ==> g.closetDeck.cards == Shuffled(Closet, closetDraws)
      ensures g != null ==> g.oneHitDeck.cards == Shuffled(OneHitWonders, oneHitDraws)
    {
      if count < 2 {
        return null;
      }
      g := new Game(count, BedroomShop, Closet, OneHitWonders, bedroomDraws, closetDraws, oneHitDraws);
    }

    /** The state `newGame()` builds: `count` fresh players, the first one
        to move, and the three decks made from the given card sets and
        shuffled. */
    constructor (count: nat, bedroom: seq<BedroomCard>, closet: seq<ClosetCard>, oneHit: seq<OneHitCard>,
                 bedroomDraws: seq<nat>, closetDraws: seq<nat>, oneHitDraws: seq<nat>)
      requires 2 <= count <= 6 && bedroom != [] && closet != []
      requires EnoughDraws(|bedroom|, bedroomDraws) && EnoughDraws(|closet|, closetDraws)
      requires EnoughDraws(|oneHit|, oneHitDraws)
      ensures Valid() && phase == Phase.StartTurn && turn == 0 && lastRoll == None && kalifStash == []
      ensures bedroomSet == multiset(bedroom) && closetSet == multiset(closet)
      ensures players == seq(count, _ => NewPlayer())
      ensures bedroomDeck.cards == Shuffled(bedroom, bedroomDraws)
      ensures closetDeck.cards == Shuffled(closet, closetDraws)
      ensures oneHitDeck.cards == Shuffled(oneHit, oneHitDraws)
      ensures fresh(bedroomDeck) && fresh(closetDeck) && fresh(oneHitDeck)
    {
      var b := new Deck(bedroom);
      b.Shuffle(bedroomDraws);
      var c := new Deck(closet);
      c.Shuffle(closetDraws);
      var o := new Deck(oneHit);
      o.Shuffle(oneHitDraws);
      assert |multiset(b.cards)| == |multiset(bedroom)| && |multiset(c.cards)| == |multiset(closet)|;
      var ps := seq(count, _ => NewPlayer());
      assert forall i :: 0 <= i < |ps| ==> Sound(ps[i]);
      players := ps;
      turn := 0;
      lastRoll := None;
      kalifStash := [];
      phase := Phase.StartTurn;
      bedroomDeck, closetDeck, oneHitDeck := b, c, o;
      bedroomSet, closetSet := multiset(bedroom), multiset(closet);
      // The first player has no flags set, so `startTurn()` leaves this state as it is.
    }

    // ---------------------------------------------------------------
    // Economy and the win check
    // ---------------------------------------------------------------

    /** `checkWinImmediate(players[i])`: the game ends exactly when that player
        stands on First of the Month with $200 or more; once over it stays over. */
    method CheckWinImmediate(i: nat)
      requires Valid() && i < |players|
      modifies this`phase
      ensures Valid()
      ensures phase == AfterWinCheck(old(phase), players[i])
    {
      if phase == GameOver {
        return;
      }
      if players[i].pos == WinSpace && players[i].cash >= WinCash {
        phase := GameOver;
      }
    }

    /** `bankCollect`: the amount (doubled under 2X MONEY) is credited, then the
        win check runs for that player. */
    method BankCollect(i: nat, amount: nat)
      requires Valid() && i < |players|
      modifies this`players, this`phase
      ensures Valid()
      ensures players == old(players)[i := Collected(old(players[i]), amount)]
      ensures phase == AfterWinCheck(old(phase), players[i])
    {
      var p := players[i];
      players := players[i := p.(cash := p.cash + Credit(p, amount))];
      CheckWinImmediate(i);
    }

    /** `bankPay`: takes `min(cash, amount)`; no win check. */
    method BankPay(i: nat, amount: nat)
      requires Valid() && i < |players|
      modifies this`players
      ensures Valid()
      ensures players == old(players)[i := Paid(old(players[i]), amount)]
    {
      var p := players[i];
      var amt := if p.cash < amount then p.cash else amount;
      players := players[i := p.(cash := p.cash - amt)];
    }

    /** `payPlayer`: moves `min(from.cash, amount)` from one player to another,
        keeping the total cash, then runs the win check for the payee. */
    method PayPlayer(from: nat, to: nat, amount: nat)
      requires Valid() && from < |players| && to < |players|
      modifies this`players, this`phase
      ensures Valid()
      ensures players == Transfer(old(players), from, to, Debit(old(players[from].cash), amount))
      ensures TotalCash(players) == TotalCash(old(players))
      ensures phase == AfterWinCheck(old(phase), players[to])
    {
      var amt := if players[from].cash < amount then players[from].cash else amount;
      var ps1 := players[from := players[from].(cash := players[from].cash - amt)];
      players := ps1[to := ps1[to].(cash := ps1[to].cash + amt)];
      assert amt == Debit(old(players[from].cash), amount);
      assert players == Transfer(old(players), from, to, amt);
      CheckWinImmediate(to);
    }

    // ---------------------------------------------------------------
    // Movement
    // ---------------------------------------------------------------

    /** Replaces player `i`'s record by `p`, which keeps the game valid. */
    method SetPlayer(i: nat, p: Player)
      requires Valid() && i < |players| && Sound(p)
      modifies this`players
      ensures Valid() && players == old(players)[i := p]
    {
      players := players[i := p];
    }

    /** `applyPassS4BonusIfCrossing` on a crossing: the current player collects
        $10 (doubled under 2X MONEY) when holding the pass card. */
    method ApplyPassBonus()
      requires Valid()
      modifies this`players, this`phase
      ensures Valid()
      ensures players == old(players)[turn := old(players[turn]).(cash := old(players[turn].cash) + PassBonus(old(players[turn])))]
      ensures phase == if HasBedroom(old(players[turn]), PassS4Plus10) then AfterWinCheck(old(phase), players[turn]) else old(phase)
    {
      if HasBedroom(players[turn], PassS4Plus10) {
        BankCollect(turn, 10);
      }
    }

    /** One step of `computeDestination`'s loop from `pos`, with `k` fork
        answers used up and `k` pass bonuses paid so far to the current player
        `p0` of `ps0`: the step of `StepFrom`, and a crossing pays one more
        bonus. A walk on course to finish `whole` stays on course, and a walk
        that starts on First of the Month stays on the ring; so the bonus
        cannot end the game, as the stored position is not First of the Month
        when a crossing happens. */
    method WalkStep(pos: int, dir: Dir, mode: Option<ForkChoice>, forks: seq<ForkChoice>, k: nat,
                    ghost n: nat, ghost whole: Walked, ghost ps0: seq<Player>, ghost p0: Player)
      returns (next: int, mode2: Option<ForkChoice>, crossed: bool)
      requires Valid() && n >= 1 && Resumes(pos, n, dir, mode, forks, k, whole)
      requires turn < |ps0| && players == ps0[turn := WithPasses(p0, k)]
      requires dir == CW && p0.pos == WinSpace ==> OnRing(pos) && mode.None?
      modifies this`players, this`phase
      ensures Valid() && phase == old(phase)
      ensures Stepped(next, mode2, crossed) == StepFrom(pos, dir, mode, forks[k])
      ensures var k2 := if crossed then k + 1 else k;
              Resumes(next, n - 1, dir, mode2, forks, k2, whole) && players == ps0[turn := WithPasses(p0, k2)]
      ensures dir == CW && p0.pos == WinSpace ==> OnRing(next) && mode2.None?
    {
      ResumeStep(pos, n, dir, mode, forks, k, whole);
      if dir == CW && p0.pos == WinSpace {
        RingStep(pos, forks[k]);
      }
      var s := StepFrom(pos, dir, mode, forks[k]);
      next, mode2, crossed := s.next, s.mode, s.crossed;
      if crossed {
        ApplyPassBonus();
        PassesAdd(p0, k, 1);
      }
    }

    /** `computeDestination(startPos, steps, dir)` for the current player, from
        the stored position: the destination and the number of s3 -> s4
        crossings are those of `Walk`, and every crossing pays the pass bonus.
        The bonus can never end the game here: a walk that crosses starts off
        First of the Month, where the stored position still is. */
    method ComputeDestination(steps: nat, dir: Dir, forks: seq<ForkChoice>) returns (dest: int, crossings: nat)
      requires Valid() && |forks| >= steps
      modifies this`players, this`phase
      ensures Valid()
      ensures var w := Walk(old(players[turn].pos), steps, dir, None, forks);
              dest == w.dest && crossings == w.crossings
      ensures players == old(players)[turn := WithPasses(old(players[turn]), crossings)]
      ensures phase == old(phase)
    {
      var start := players[turn].pos;
      ghost var p0 := players[turn];
      ghost var whole := Walk(start, steps, dir, None, forks);
      var pos := start;
      var mode: Option<ForkChoice> := None;
      crossings := 0;
      var i := 0;
      while i < steps
        invariant 0 <= i <= steps
        invariant Valid() && Resumes(pos, steps - i, dir, mode, forks, crossings, whole)
        invariant players == old(players)[turn := WithPasses(p0, crossings)]
        invariant phase == old(phase)
        invariant dir == CW && p0.pos == WinSpace ==> OnRing(pos) && mode.None?
      {
        var crossed;
        pos, mode, crossed := WalkStep(pos, dir, mode, forks, crossings, steps - i, whole, old(players), p0);
        if crossed {
          crossings := crossings + 1;
        }
        i := i + 1;
      }
      dest := pos;
    }

    /** The optional +1 clockwise step after a move (`maybeUsePlus1` and its
        one-step walk). The fork answer asked on a crossing from s3 is not used,
        as the walk ends there. */
    method MaybeUsePlus1(accept: bool, fork: ForkChoice)
      requires Valid()
      modifies this`players, this`phase
      ensures Valid() && phase == old(phase)
      ensures players == old(players)[turn := Plus1Step(old(players[turn]), accept)]
    {
      var p := players[turn];
      if !(HasBedroom(p, MayPlus1) && !p.usedPlus1ThisTurn) || !accept {
        return;
      }
      players := players[turn := p.(usedPlus1ThisTurn := true)];
      var extra, _ := ComputeDestination(1, CW, [fork]);
      OneStepWalk(p.pos, fork);
      players := players[turn := players[turn].(pos := extra)];
    }

    /** The movement part of `doMoveByRoll` / `doForcedMove`: walk, settle on
        the destination, offer the +1 step, and zoom in before resolving.
        Like the source, it does not check for GameOver first. */
    method MoveBy(steps: nat, dir: Dir, forks: seq<ForkChoice>, plus1: bool, plusFork: ForkChoice)
      requires Valid() && |forks| >= steps
      modifies this`players, this`phase
      ensures Valid() && phase == BeforeResolve
      ensures players == old(players)[turn := Plus1Step(Moved(old(players[turn]), steps, dir, forks), plus1)]
    {
      phase := Moving;
      var dest, crossings := ComputeDestination(steps, dir, forks);
      var p1 := players[turn].(pos := dest);
      assert p1 == WithPasses(old(players[turn]), crossings).(pos := dest);
      assert p1 == Moved(old(players[turn]), steps, dir, forks);
      SetPlayer(turn, p1);
      MaybeUsePlus1(plus1, plusFork);
      assert players == old(players)[turn := Plus1Step(p1, plus1)];
      phase := Zooming;
      phase := BeforeResolve;
    }

    /** `teleportThenResolve(dest)` up to the landing: the token is put on
        `dest` (no walk, no pass bonus), then the +1 step is offered. Like the
        source, it does not check for GameOver first. */
    method TeleportTo(dest: int, plus1: bool, plusFork: ForkChoice)
      requires Valid() && IsSpace(dest)
      modifies this`players, this`phase
      ensures Valid() && phase == BeforeResolve
      ensures players == old(players)[turn := Plus1Step(old(players[turn]).(pos := dest), plus1)]
    {
      phase := Moving;
      var p1 := players[turn].(pos := dest);
      SetPlayer(turn, p1);
      MaybeUsePlus1(plus1, plusFork);
      assert players == old(players)[turn := Plus1Step(p1, plus1)];
      phase := Zooming;
      phase := BeforeResolve;
    }

    /** `doRoll`: the roll is stored and the Mic Drop window opens. */
    method DoRoll(r: D20)
      requires Valid()
      modifies this`phase, this`lastRoll
      ensures Valid() && phase == AfterRoll && lastRoll == Some(r)
    {
      phase := AfterRoll;
      lastRoll := Some(r);
    }

    /** The Roll button: honoured only at the start of a turn. */
    method RequestRoll(r: D20)
      requires Valid()
      modifies this`phase, this`lastRoll
      ensures Valid()
      ensures old(phase) == Phase.StartTurn ==> phase == AfterRoll && lastRoll == Some(r)
      ensures old(phase) != Phase.StartTurn ==> phase == old(phase) && lastRoll == old(lastRoll)
    {
      if phase != Phase.StartTurn {
        return;
      }
      DoRoll(r);
    }

    /** The rest of `doRoll` after its decision moment: nothing if the game
        ended there, otherwise `doMoveByRoll(lastRoll)`. A roll cleared in the
        meantime (a new turn started) counts as zero steps. */
    method MoveByRoll(forks: seq<ForkChoice>, plus1: bool, plusFork: ForkChoice)
      requires Valid() && |forks| >= 20
      modifies this`players, this`phase
      ensures Valid()
      ensures old(phase) == GameOver ==> phase == GameOver && players == old(players)
      ensures old(phase) != GameOver ==> phase == BeforeResolve
      ensures old(phase) != GameOver && lastRoll.Some? ==>
                players == old(players)[turn := Plus1Step(Moved(old(players[turn]), lastRoll.value, CW, forks), plus1)]
      ensures old(phase) != GameOver && lastRoll.None? ==>
                players == old(players)[turn := Plus1Step(old(players[turn]), plus1)]
    {
      if phase == GameOver {
        return;
      }
      var steps := match lastRoll case Some(r) => r case None => 0;
      WalkZero(players[turn].pos, CW, None, forks);
      MoveBy(steps, CW, forks, plus1, plusFork);
    }

    // ---------------------------------------------------------------
    // Turn flow
    // ---------------------------------------------------------------

    /** `startTurn()`: a no-op once the game is over; otherwise the turn
        settles as `StartTurnSpec` says (skipping players who must lose a
        turn), in phase StartTurn with no roll stored. */
    method StartTurn()
      requires Valid()
      modifies this`players, this`turn, this`phase, this`lastRoll
      ensures Valid()
      ensures old(phase) == GameOver ==>
                phase == GameOver && players == old(players) && turn == old(turn) && lastRoll == old(lastRoll)
      ensures old(phase) != GameOver ==>
                phase == Phase.StartTurn && lastRoll == None
                && Rota(players, turn) == StartTurnSpec(old(players), old(turn))
      decreases LoseCount(players), 1
    {
      if phase == GameOver {
        return;
      }
      phase := Phase.StartTurn;
      var p := players[turn];
      lastRoll := None;
      if p.loseTurn {
        var cleared := p.(usedPlus1ThisTurn := false, loseTurn := false);
        LoseCountUpdate(players, turn, cleared);
        players := players[turn := cleared];
        EndTurnInternal(false);
      } else {
        players := players[turn := p.(usedPlus1ThisTurn := false)];
      }
    }

    /** `endTurnInternal(skipExtraQueue)`: uses up a queued extra turn (unless
        skipped) or passes the turn on, then starts the turn. It has no
        GameOver guard of its own; `startTurn` has. */
    method EndTurnInternal(skipExtraQueue: bool)
      requires Valid()
      modifies this`players, this`turn, this`phase, this`lastRoll
      ensures Valid()
      ensures old(phase) != GameOver ==>
                phase == Phase.StartTurn && lastRoll == None
                && Rota(players, turn) == EndTurnSpec(old(players), old(turn), skipExtraQueue)
      ensures old(phase) == GameOver ==>
                phase == GameOver && lastRoll == old(lastRoll)
                && Rota(players, turn) == PassTurn(old(players), old(turn), skipExtraQueue)
      decreases LoseCount(players), 2
    {
      var p := players[turn];
      if !skipExtraQueue && p.extraTurnQueued > 0 {
        var used := p.(extraTurnQueued := p.extraTurnQueued - 1);
        LoseCountUpdate(players, turn, used);
        players := players[turn := used];
      } else {
        turn := (turn + 1) % |players|;
      }
      assert Rota(players, turn) == PassTurn(old(players), old(turn), skipExtraQueue);
      StartTurn();
    }

    /** The End Turn button: ignored once the game is over and refused
        (with no change) outside StartTurn and AfterResolve. */
    method EndTurn()
      requires Valid()
      modifies this`players, this`turn, this`phase, this`lastRoll
      ensures Valid()
      ensures !EndTurnAllowed(old(phase)) ==>
                phase == old(phase) && players == old(players) && turn == old(turn) && lastRoll == old(lastRoll)
      ensures EndTurnAllowed(old(phase)) ==>
                phase == Phase.StartTurn && lastRoll == None
                && Rota(players, turn) == EndTurnSpec(old(players), old(turn), false)
    {
      if phase == GameOver {
        return;
      }
      if !(phase == AfterResolve || phase == Phase.StartTurn) {
        return;
      }
      EndTurnInternal(false);
    }

    // ---------------------------------------------------------------
    // Position swaps and One Hit Wonders
    // ---------------------------------------------------------------

    /** Two players trade places; the win check then runs for `a` and for `b`. */
    method SwapPositions(a: nat, b: nat)
      requires Valid() && a < |players| && b < |players| && a != b
      modifies this`players, this`phase
      ensures Valid()
      ensures players == SwapPos(old(players), a, b)
      ensures phase == AfterWinCheck(AfterWinCheck(old(phase), players[a]), players[b])
    {
      var pa := players[a].pos;
      players := players[a := players[a].(pos := players[b].pos)];
      players := players[b := players[b].(pos := pa)];
      CheckWinImmediate(a);
      CheckWinImmediate(b);
    }

    /** `tryBedroomSwap`: only a holder of the Bedroom swap card may swap, with
        any other player (or Cancel). */
    method TryBedroomSwap(target: Option<nat>)
      requires Valid() && OtherOrCancel(turn, target)
      modifies this`players, this`phase
      ensures Valid()
      ensures !HasBedroom(old(players[turn]), SwapAnyBedroom) || target.None? ==>
                players == old(players) && phase == old(phase)
      ensures HasBedroom(old(players[turn]), SwapAnyBedroom) && target.Some? ==>
                players == SwapPos(old(players), turn, target.value)
                && phase == AfterWinCheck(AfterWinCheck(old(phase), players[turn]), players[target.value])
    {
      if !HasBedroom(players[turn], SwapAnyBedroom) {
        return;
      }
      if target.None? {
        return;
      }
      SwapPositions(turn, target.value);
    }

    /** Goat Tax: every other player pays the owner $10 (as much as each has),
        each payment followed by the owner's win check. */
    method GoatTax(owner: nat)
      requires Valid() && owner < |players|
      modifies this`players, this`phase
      ensures Valid() && |players| == |old(players)|
      ensures TotalCash(players) == TotalCash(old(players))
      ensures forall j :: 0 <= j < |players| && j != owner ==> players[j] == Paid(old(players)[j], 10)
      ensures players[owner] == old(players[owner]).(cash := players[owner].cash)
      ensures players[owner].cash >= old(players[owner].cash)
      ensures phase == AfterWinCheck(old(phase), players[owner])
    {
      var i := 0;
      while i < |players|
        invariant 0 <= i <= |players| == |old(players)|
        invariant Valid()
        invariant TotalCash(players) == TotalCash(old(players))
        invariant forall j :: 0 <= j < |players| && j != owner ==>
                    players[j] == if j < i then Paid(old(players)[j], 10) else old(players)[j]
        invariant players[owner] == old(players[owner]).(cash := players[owner].cash)
        invariant players[owner].cash >= old(players[owner].cash)
        invariant phase == if i > (if owner == 0 then 1 else 0) then AfterWinCheck(old(phase), players[owner]) else old(phase)
      {
        if i != owner {
          ghost var prev := players;
          PayPlayer(i, owner, 10);
          assert players[i] == Paid(prev[i], 10);
        }
        i := i + 1;
      }
    }

    /** Mic Drop on `target`: the target will lose a turn; when it is the
        current player, the turn also ends at once (without using a queued
        extra turn). */
    method MicDropOn(target: nat)
      requires Valid() && target < |players|
      modifies this`players, this`turn, this`phase, this`lastRoll
      ensures Valid()
      ensures var dropped := old(players)[target := old(players[target]).(loseTurn := true)];
              if target != old(turn) then
                players == dropped && turn == old(turn) && phase == old(phase) && lastRoll == old(lastRoll)
              else if old(phase) != GameOver then
                phase == Phase.StartTurn && lastRoll == None
                && Rota(players, turn) == EndTurnSpec(dropped, old(turn), true)
              else
                phase == GameOver && players == dropped && turn == (old(turn) + 1) % |players|
    {
      players := players[target := players[target].(loseTurn := true)];
      if turn == target {
        EndTurnInternal(true);
      }
    }

    // ---------------------------------------------------------------
    // Landing effects
    // ---------------------------------------------------------------

    /** What Battle Rap leaves: nothing changes on Cancel or a tie; otherwise
        the strictly higher roller collects $20, then that player's win check. */
    ghost predicate BattleRapOutcome(opponent: Option<nat>, r1: D20, r2: D20,
                                     ps0: seq<Player>, phase0: Phase, ps: seq<Player>, phase1: Phase)
      reads this
      requires turn < |ps0| && (opponent.Some? ==> opponent.value < |ps0| && opponent.value != turn)
    {
      if opponent.None? || r1 == r2 then ps == ps0 && phase1 == phase0
      else
        var w := DuelWinner(turn, opponent.value, r1, r2).value;
        ps == ps0[w := Collected(ps0[w], 20)] && phase1 == AfterWinCheck(phase0, ps[w])
    }

    /** Battle Rap (s5): the current player and a picked opponent each roll;
        the strictly higher roller collects $20, a tie pays nobody. */
    method BattleRap(opponent: Option<nat>, r1: D20, r2: D20)
      requires Valid() && OtherOrCancel(turn, opponent)
      modifies this`players, this`phase
      ensures Valid()
      ensures BattleRapOutcome(opponent, r1, r2, old(players), old(phase), players, phase)
    {
      if opponent.None? {
        return;
      }
      var winner := DuelWinner(turn, opponent.value, r1, r2);
      if winner.None? {
        return;
      }
      BankCollect(winner.value, 20);
    }

    /** What Fake Family does to the players: nothing on Cancel; otherwise both
        duellists are put on s0, and the strictly higher roller collects $20. */
    ghost predicate FakeFamilyOutcome(opponent: Option<nat>, r1: D20, r2: D20, ps0: seq<Player>, ps: seq<Player>)
      reads this
      requires turn < |ps0| && (opponent.Some? ==> opponent.value < |ps0| && opponent.value != turn)
    {
      if opponent.None? then ps == ps0
      else
        var o := opponent.value;
        var home := ps0[turn := ps0[turn].(pos := 0)][o := ps0[o].(pos := 0)];
        if r1 == r2 then ps == home
        else var w := DuelWinner(turn, o, r1, r2).value; ps == home[w := Collected(home[w], 20)]
    }

    /** Fake Family (s9): both duellists go to the Living Room (s0) first, so
        the $20 prize can never end the game here. */
    method FakeFamily(opponent: Option<nat>, r1: D20, r2: D20)
      requires Valid() && OtherOrCancel(turn, opponent)
      modifies this`players, this`phase
      ensures Valid() && phase == old(phase)
      ensures FakeFamilyOutcome(opponent, r1, r2, old(players), players)
    {
      if opponent.None? {
        return;
      }
      var o := opponent.value;
      players := players[turn := players[turn].(pos := 0)];
      players := players[o := players[o].(pos := 0)];
      var winner := DuelWinner(turn, o, r1, r2);
      if winner.None? {
        return;
      }
      BankCollect(winner.value, 20);
    }

    /** What a Basement attempt does to the players: 1-9 sets the lose-turn
        flag; otherwise card `pick` modulo the hand size moves from the victim
        to the end of the player's hand, and Cancel changes nothing. */
    ghost predicate BasementOutcome(r: D20, victim: Option<nat>, pick: nat, ps0: seq<Player>, ps: seq<Player>)
      reads this
      requires turn < |ps0| && (victim.Some? ==> victim.value < |ps0| && |ps0[victim.value].bedroom| > 0)
    {
      if r <= 9 then ps == ps0[turn := ps0[turn].(loseTurn := true)]
      else if victim.None? then ps == ps0
      else
        var v := victim.value;
        var b := ps0[v].bedroom;
        var k := pick % |b|;
        ps == ps0[v := ps0[v].(bedroom := RemoveAt(b, k))][turn := ps0[turn].(bedroom := ps0[turn].bedroom + [b[k]])]
    }

    /** Basement (s6, s22): on 1-9 the player loses a turn; otherwise one
        Bedroom card, chosen at random (`pick`), is stolen from a victim who
        holds one (or nothing happens on Cancel or when nobody holds one). */
    method BasementAttempt(r: D20, victim: Option<nat>, pick: nat)
      requires Valid()
      requires victim.Some? ==> victim.value < |players| && victim.value != turn && |players[victim.value].bedroom| > 0
      modifies this`players
      ensures Valid()
      ensures BasementOutcome(r, victim, pick, old(players), players)
      ensures r > 9 && victim.Some? ==>
                var v := victim.value;
                multiset(players[turn].bedroom) + multiset(players[v].bedroom)
                   == multiset(old(players[turn].bedroom)) + multiset(old(players[v].bedroom))
    {
      if r <= 9 {
        players := players[turn := players[turn].(loseTurn := true)];
        return;
      }
      if victim.None? {
        return;
      }
      var v := victim.value;
      var b := players[v].bedroom;
      var k := pick % |b|;
      var stolen := b[k];
      players := players[v := players[v].(bedroom := RemoveAt(b, k))];
      players := players[turn := players[turn].(bedroom := players[turn].bedroom + [stolen])];
    }

    /** What the Hookah guess leaves: the prize collected with a win check, or
        no change for a wrong guess. */
    ghost predicate HookahOutcome(guess: HookahGuess, ps0: seq<Player>, phase0: Phase, ps: seq<Player>, phase1: Phase)
      reads this
      requires turn < |ps0|
    {
      if guess == Neither then ps == ps0 && phase1 == phase0
      else ps == ps0[turn := Collected(ps0[turn], HookahPrize(guess))] && phase1 == AfterWinCheck(phase0, ps[turn])
    }

    /** Hookah Lounge (s7): $20 for the artist, $10 for the song, $30 for both,
        nothing otherwise. */
    method HookahLounge(guess: HookahGuess)
      requires Valid()
      modifies this`players, this`phase
      ensures Valid()
      ensures HookahOutcome(guess, old(players), old(phase), players, phase)
    {
      if guess == Neither {
        return;
      }
      BankCollect(turn, HookahPrize(guess));
    }

    /** Closet of Shame (s11, s33): the front card is drawn and at once put
        back with a reshuffle; its d20 table is then applied. */
    method DrawCloset(draws: seq<nat>, target: Option<nat>, r: D20)
      requires Valid() && EnoughDraws(|closetDeck.cards|, draws) && OtherOrCancel(turn, target)
      modifies closetDeck, this`players, this`phase
      ensures Valid()
      ensures var card := old(closetDeck.cards[0]);
              card in closetSet && closetDeck.cards == Shuffled(old(closetDeck.cards)[1..] + [card], draws)
      ensures ClosetOutcome(old(closetDeck.cards[0]), target, r, old(players), old(phase), players, phase)
    {
      var drawn := closetDeck.Draw();
      var card := drawn.value;
      closetDeck.PutBackAndShuffle(card, draws);
      DrawThenPutBack(old(closetDeck.cards), draws);
      assert card in multiset(old(closetDeck.cards));
      ApplyClosetRule(card, target, r);
    }

    /** What applying a Closet card's table leaves: the rule `rules.find`
        picks for the roll is paid to the bank and/or collected from it, or,
        on a "pick a player" card, paid by the picked player to the drawer. */
    ghost predicate ClosetOutcome(card: ClosetCard, target: Option<nat>, r: D20,
                                  ps0: seq<Player>, phase0: Phase, ps: seq<Player>, phase1: Phase)
      reads this
      requires turn < |ps0| && (forall i :: 0 <= i < |ps0| ==> ps0[i].cash >= 0)
      requires target.Some? ==> target.value < |ps0|
    {
      var rule := FindRule(card.rules, r);
      if card.kind == TargetRollPayToDrawer then
        if target.Some? && rule.Some? && rule.value.pay > 0 then
          var t := target.value;
          ps == Transfer(ps0, t, turn, Debit(ps0[t].cash, rule.value.pay))
          && |ps| == |ps0| && phase1 == AfterWinCheck(phase0, ps[turn])
        else ps == ps0 && phase1 == phase0
      else
        var pay := if rule.Some? then rule.value.pay else 0;
        var collect := if rule.Some? then rule.value.collect else 0;
        var p1 := Paid(ps0[turn], pay);
        if collect > 0 then
          ps == ps0[turn := Collected(p1, collect)] && phase1 == AfterWinCheck(phase0, ps[turn])
        else ps == ps0[turn := p1] && phase1 == phase0
    }

    /** `rules.find` on the drawn card's table and the payment it calls for. */
    method ApplyClosetRule(card: ClosetCard, target: Option<nat>, r: D20)
      requires Valid() && OtherOrCancel(turn, target)
      modifies this`players, this`phase
      ensures Valid()
      ensures ClosetOutcome(card, target, r, old(players), old(phase), players, phase)
    {
      var rule := FindRule(card.rules, r);
      if card.kind == TargetRollPayToDrawer {
        if target.Some? && rule.Some? && rule.value.pay > 0 {
          PayPlayer(target.value, turn, rule.value.pay);
        }
        return;
      }
      var pay := if rule.Some? then rule.value.pay else 0;
      var collect := if rule.Some? then rule.value.collect else 0;
      ghost var p1 := Paid(players[turn], pay);
      if pay > 0 {
        BankPay(turn, pay);
      }
      assert players == old(players)[turn := p1];
      if collect > 0 {
        BankCollect(turn, collect);
      }
    }

    /** What the Robbed choice leaves: Cancel changes nothing; losing money
        pays the bank $10 (clamped); losing a resource removes card `pick`
        modulo the hand size, which goes to Kalif's stash only when `toStash`. */
    ghost predicate RobbedOutcome(toStash: bool, loss: Option<Loss>, pick: nat,
                                  ps0: seq<Player>, stash0: seq<BedroomCard>, ps: seq<Player>, stash: seq<BedroomCard>)
      reads this
      requires turn < |ps0| && ps0[turn].cash >= 0 && (loss.Some? ==> LossOffered(ps0[turn], loss.value))
    {
      match loss
      case None => ps == ps0 && stash == stash0
      case Some(LoseMoney) => ps == ps0[turn := Paid(ps0[turn], 10)] && stash == stash0
      case Some(LoseResource) =>
        var b := ps0[turn].bedroom;
        var k := pick % |b|;
        ps == ps0[turn := ps0[turn].(bedroom := RemoveAt(b, k))] && stash == stash0 + (if toStash then [b[k]] else [])
    }

    /** Robbed (s15 by Kalif, s35 by the Gash): lose $10 or, when holding one,
        a random Bedroom card (`pick`), which s35 adds to Kalif's stash. */
    method RobbedChoice(toStash: bool, loss: Option<Loss>, pick: nat)
      requires Valid() && (loss.Some? ==> LossOffered(players[turn], loss.value))
      modifies this`players, this`kalifStash
      ensures Valid()
      ensures RobbedOutcome(toStash, loss, pick, old(players), old(kalifStash), players, kalifStash)
    {
      if loss.None? {
        return;
      }
      if loss.value == LoseMoney {
        BankPay(turn, 10);
        return;
      }
      var b := players[turn].bedroom;
      var k := pick % |b|;
      var lost := b[k];
      players := players[turn := players[turn].(bedroom := RemoveAt(b, k))];
      if toStash {
        kalifStash := kalifStash + [lost];
      }
    }

    /** What Blew It All leaves: no cash and no Bedroom cards, and the stash
        extended by the hand in pop order. */
    ghost predicate BlewItAllOutcome(ps0: seq<Player>, stash0: seq<BedroomCard>, ps: seq<Player>, stash: seq<BedroomCard>)
      reads this
      requires turn < |ps0|
    {
      ps == ps0[turn := ps0[turn].(cash := 0, bedroom := [])] && stash == stash0 + Reversed(ps0[turn].bedroom)
    }

    /** Blew It All (s17): cash goes to 0 and every Bedroom card is popped,
        last first, onto Kalif's stash. */
    method BlewItAll()
      requires Valid()
      modifies this`players, this`kalifStash
      ensures Valid()
      ensures BlewItAllOutcome(old(players), old(kalifStash), players, kalifStash)
      ensures multiset(kalifStash) == multiset(old(kalifStash)) + multiset(old(players[turn].bedroom))
    {
      var rest := players[turn].bedroom;
      ghost var b0 := rest;
      players := players[turn := players[turn].(cash := 0)];
      while |rest| > 0
        invariant |rest| <= |b0| && rest == b0[..|rest|]
        invariant players == old(players)[turn := old(players[turn]).(cash := 0, bedroom := rest)]
        invariant kalifStash == old(kalifStash) + Reversed(b0[|rest|..])
        decreases |rest|
      {
        var top := rest[|rest| - 1];
        ReversedPop(b0, |rest|);
        rest := rest[..|rest| - 1];
        players := players[turn := players[turn].(bedroom := rest)];
        kalifStash := kalifStash + [top];
      }
      assert b0[|rest|..] == b0;
      ReversedPermutes(b0);
      assert forall i :: 0 <= i < |players| ==> Sound(players[i]);
    }

    /** What a Bedroom Shop draw leaves: the front card is put back and the
        deck reshuffled with `draws`; the player gets a copy of it and, holding
        "Meech left the safe open" (the new card included), collects $5. */
    ghost predicate BedroomShopOutcome(draws: seq<nat>, deck0: seq<BedroomCard>, ps0: seq<Player>, phase0: Phase,
                                       deck: seq<BedroomCard>, ps: seq<Player>, phase1: Phase)
      reads this
      requires turn < |ps0| && deck0 != [] && EnoughDraws(|deck0|, draws)
    {
      var card := deck0[0];
      && deck == Shuffled(deck0[1..] + [card], draws)
      && var p1 := ps0[turn].(bedroom := ps0[turn].bedroom + [card]);
         if HasBedroom(p1, LandS20Plus5) then ps == ps0[turn := Collected(p1, 5)] && phase1 == AfterWinCheck(phase0, ps[turn])
         else ps == ps0[turn := p1] && phase1 == phase0
    }

    /** Bedroom Shop (s20): the front card is drawn, put back with a reshuffle,
        and a copy goes to the player; a holder of "Meech left the safe open"
        (the new card included) then collects $5. */
    method DrawBedroomShop(draws: seq<nat>)
      requires Valid() && EnoughDraws(|bedroomDeck.cards|, draws)
      modifies bedroomDeck, this`players, this`phase
      ensures Valid()
      ensures old(bedroomDeck.cards[0]) in bedroomSet
      ensures BedroomShopOutcome(draws, old(bedroomDeck.cards), old(players), old(phase), bedroomDeck.cards, players, phase)
    {
      var drawn := bedroomDeck.Draw();
      var card := drawn.value;
      bedroomDeck.PutBackAndShuffle(card, draws);
      DrawThenPutBack(old(bedroomDeck.cards), draws);
      assert card in multiset(old(bedroomDeck.cards));
      players := players[turn := players[turn].(bedroom := players[turn].bedroom + [card])];
      if HasBedroom(players[turn], LandS20Plus5) {
        BankCollect(turn, 5);
      }
    }

    /** What Blackmail leaves: nothing on Cancel; otherwise the target pays the
        player $10 (clamped), with the player's win check, or gets the
        lose-turn flag. */
    ghost predicate BlackmailOutcome(target: Option<nat>, answer: BlackmailAnswer,
                                     ps0: seq<Player>, phase0: Phase, ps: seq<Player>, phase1: Phase)
      reads this
      requires turn < |ps0| && (target.Some? ==> target.value < |ps0| && target.value != turn && ps0[target.value].cash >= 0)
    {
      if target.None? then ps == ps0 && phase1 == phase0
      else if answer == PayUp then
        var t := target.value;
        ps == Transfer(ps0, t, turn, Debit(ps0[t].cash, 10)) && |ps| == |ps0| && phase1 == AfterWinCheck(phase0, ps[turn])
      else ps == ps0[target.value := ps0[target.value].(loseTurn := true)] && phase1 == phase0
    }

    /** Blackmail (s21): the picked player either pays the current player $10
        or will lose a turn. */
    method Blackmail(target: Option<nat>, answer: BlackmailAnswer)
      requires Valid() && OtherOrCancel(turn, target)
      modifies this`players, this`phase
      ensures Valid()
      ensures BlackmailOutcome(target, answer, old(players), old(phase), players, phase)
    {
      if target.None? {
        return;
      }
      if answer == PayUp {
        PayPlayer(target.value, turn, 10);
      } else {
        players := players[target.value := players[target.value].(loseTurn := true)];
      }
    }

    /** The clockwise scan of `featOnTrack`: the first space, within 200
        steps, that another player occupies. */
    method FeatTarget() returns (dest: Option<int>)
      requires turn < |players| && forall i :: 0 <= i < |players| ==> IsSpace(players[i].pos)
      ensures FeatScan(players, turn, players[turn].pos, dest)
      ensures (exists j :: 0 <= j < |players| && j != turn && OnRing(players[j].pos)) ==> dest.Some?
    {
      var start := players[turn].pos;
      var occupied := set j | 0 <= j < |players| && j != turn :: players[j].pos;
      assert forall q :: q in occupied <==> OccupiedBy(players, turn, q);
      if occupied == {} {
        assert forall j :: 0 <= j < |players| && j != turn ==> players[j].pos in occupied;
        return None;
      }
      // A player on the ring is met within SpaceCount steps.
      ghost var ringK: nat := 0;
      if exists j :: 0 <= j < |players| && j != turn && OnRing(players[j].pos) {
        var j :| 0 <= j < |players| && j != turn && OnRing(players[j].pos);
        RingReachable(start, players[j].pos);
        ringK :| 1 <= ringK <= SpaceCount && IterCW(start, ringK) == players[j].pos;
      }
      var steps := 0;
      var pos := start;
      while steps < 200
        invariant 0 <= steps <= 200 && IsSpace(pos) && pos == IterCW(start, steps)
        invariant forall k :: 1 <= k <= steps ==> !OccupiedBy(players, turn, IterCW(start, k))
      {
        IterCWStep(start, steps);
        pos := NextCW(pos);
        steps := steps + 1;
        if pos in occupied {
          return Some(pos);
        }
      }
      assert ringK > 0 ==> OccupiedBy(players, turn, IterCW(start, ringK));
      return None;
    }


    /** What a One Hit Wonder draw leaves: the front card of the deck, or of a
        fresh full set shuffled with `draws` when the deck is empty, moves to
        the end of the player's hand. */
    ghost predicate OneHitDrawOutcome(draws: seq<nat>, deck0: seq<OneHitCard>, ps0: seq<Player>,
                                      deck: seq<OneHitCard>, ps: seq<Player>)
      reads this
      requires turn < |ps0| && EnoughDraws(|OneHitWonders|, draws)
    {
      var source := if deck0 != [] then deck0 else Shuffled(OneHitWonders, draws);
      source != [] && deck == source[1..] && ps == ps0[turn := ps0[turn].(oneHit := ps0[turn].oneHit + [source[0]])]
    }

    /** One Hit Wonder (s28): the player takes the front card; an empty deck is
        first replaced by a fresh, shuffled full set. */
    method DrawOneHit(draws: seq<nat>)
      requires Valid() && EnoughDraws(|OneHitWonders|, draws)
      modifies this`players, this`oneHitDeck, oneHitDeck
      ensures Valid()
      ensures old(oneHitDeck.cards) != [] ==> oneHitDeck == old(oneHitDeck)
      ensures old(oneHitDeck.cards) == [] ==> fresh(oneHitDeck)
      ensures OneHitDrawOutcome(draws, old(oneHitDeck.cards), old(players), oneHitDeck.cards, players)
    {
      var drawn := oneHitDeck.Draw();
      if drawn.None? {
        ReseedOneHit(draws);
        drawn := oneHitDeck.Draw();
      }
      players := players[turn := players[turn].(oneHit := players[turn].oneHit + [drawn.value])];
    }

    /** The empty One-Hit deck replaced by a fresh deck of the full set,
        shuffled with `draws`. */
    method ReseedOneHit(draws: seq<nat>)
      requires Valid() && EnoughDraws(|OneHitWonders|, draws)
      modifies this`oneHitDeck
      ensures Valid() && fresh(oneHitDeck)
      ensures oneHitDeck.cards == Shuffled(OneHitWonders, draws) && oneHitDeck.cards != []
    {
      var reseeded := new Deck(OneHitWonders);
      reseeded.Shuffle(draws);
      oneHitDeck := reseeded;
      ShufflePermutes(OneHitWonders, draws);
      assert |oneHitDeck.cards| == |OneHitWonders| > 0;
    }

    /** What Orgy Night leaves: every player has collected $10, and the game is
        over exactly when it already was or some player now wins. */
    ghost predicate OrgyOutcome(ps0: seq<Player>, phase0: Phase, ps: seq<Player>, phase1: Phase) {
      && |ps| == |ps0|
      && (forall i :: 0 <= i < |ps| ==> ps[i] == Collected(ps0[i], 10))
      && (phase1 == GameOver <==> phase0 == GameOver || exists i :: 0 <= i < |ps| && Wins(ps[i]))
      && (phase1 != GameOver ==> phase1 == phase0)
    }

    /** Orgy Night (s26): every player collects $10, each followed by that
        player's win check. */
    method OrgyNight()
      requires Valid()
      modifies this`players, this`phase
      ensures Valid()
      ensures OrgyOutcome(old(players), old(phase), players, phase)
    {
      var i := 0;
      while i < |players|
        invariant 0 <= i <= |players| == |old(players)|
        invariant Valid()
        invariant forall k :: 0 <= k < i ==> players[k] == Collected(old(players)[k], 10)
        invariant forall k :: i <= k < |players| ==> players[k] == old(players)[k]
        invariant phase == GameOver <==> old(phase) == GameOver || exists k :: 0 <= k < i && Wins(players[k])
        invariant phase != GameOver ==> phase == old(phase)
      {
        BankCollect(i, 10);
        i := i + 1;
      }
    }

    /** The Inferno (s34): the player collects the total of five d20 rolls. */
    method Inferno(rolls: seq<D20>)
      requires Valid() && |rolls| >= 5
      modifies this`players, this`phase
      ensures Valid()
      ensures players == old(players)[turn := Collected(old(players[turn]), SumOf(rolls[..5]))]
      ensures phase == AfterWinCheck(old(phase), players[turn])
    {
      var sum: int := 0;
      var i := 0;
      while i < 5
        invariant 0 <= i <= 5 && sum == SumOf(rolls[..i])
      {
        assert rolls[..i + 1][..i] == rolls[..i];
        sum := sum + rolls[i];
        i := i + 1;
      }
      BankCollect(turn, sum);
    }

    /** High Tension Towers (s24): 1-9 loses a turn; otherwise the player is
        driven that many spaces clockwise. */
    method HighTensionTowers(r: D20) returns (next: NextAction)
      requires Valid()
      modifies this`players
      ensures Valid()
      ensures r <= 9 ==> next == Done && players == old(players)[turn := old(players[turn]).(loseTurn := true)]
      ensures r > 9 ==> next == ForcedMove(r, CW) && players == old(players)
    {
      if r <= 9 {
        players := players[turn := players[turn].(loseTurn := true)];
        return Done;
      }
      return ForcedMove(r, CW);
    }

    /** The dialog answers and random numbers one landing needs are well
        formed: a picked player is another player, a robbed player is offered
        only what they can lose, a steal victim holds a Bedroom card, and
        there are enough dice and shuffle draws. */
    predicate InputsFit(inp: Inputs)
      reads this, bedroomDeck, closetDeck
      requires turn < |players| && IsSpace(players[turn].pos)
    {
      && |inp.rolls| >= 5
      && OtherOrCancel(turn, inp.opponent)
      && (EffectOf(players[turn].pos) == Effect.BasementAttempt && inp.opponent.Some? ==>
            |players[inp.opponent.value].bedroom| > 0)
      && (inp.loss.Some? ==> LossOffered(players[turn], inp.loss.value))
      && EnoughDraws(|closetDeck.cards|, inp.draws)
      && EnoughDraws(|bedroomDeck.cards|, inp.draws)
      && EnoughDraws(|OneHitWonders|, inp.draws)
    }

    /** The players, the phase, the stash and the three decks' cards. */
    ghost function Snap(): Snapshot
      reads this, bedroomDeck, closetDeck, oneHitDeck
    {
      Snapshot(players, phase, kalifStash, bedroomDeck.cards, closetDeck.cards, oneHitDeck.cards)
    }

    /** `InputsFit` for the effect `e`, stated on a snapshot: no debt, and the
        inputs that effect may consume are well formed. */
    ghost predicate LandingFits(e: Effect, inp: Inputs, s0: Snapshot)
      reads this
    {
      && turn < |s0.players|
      && (forall i :: 0 <= i < |s0.players| ==> s0.players[i].cash >= 0)
      && |inp.rolls| >= 5
      && (inp.opponent.Some? ==> inp.opponent.value < |s0.players| && inp.opponent.value != turn)
      && (e == Effect.BasementAttempt && inp.opponent.Some? ==> |s0.players[inp.opponent.value].bedroom| > 0)
      && (inp.loss.Some? ==> LossOffered(s0.players[turn], inp.loss.value))
      && s0.closetCards != [] && EnoughDraws(|s0.closetCards|, inp.draws)
      && s0.bedroomCards != [] && EnoughDraws(|s0.bedroomCards|, inp.draws)
      && EnoughDraws(|OneHitWonders|, inp.draws)
    }

    /** What each landing effect that leaves the token in place does, from the
        game `s0` to the game `s1`, including what it leaves alone. An effect
        that moves the token changes nothing here. */
    ghost predicate LandingOutcome(e: Effect, inp: Inputs, s0: Snapshot, s1: Snapshot)
      reads this
      requires LandingFits(e, inp, s0)
    {
      if Plain(e) then PlainOutcome(e, inp, s0, s1)
      else if AsksPlayers(e) then DialogOutcome(e, inp, s0, s1)
      else if HandlesCards(e) then CardOutcome(e, inp, s0, s1)
      else s1 == s0
    }

    /** `LandingOutcome` for the effects that only settle with the bank, set
        a flag or run the win check. */
    ghost predicate PlainOutcome(e: Effect, inp: Inputs, s0: Snapshot, s1: Snapshot)
      reads this
      requires LandingFits(e, inp, s0)
    {
      var (ps0, ps) := (s0.players, s1.players);
      var sameRest := s1.stash == s0.stash && s1.bedroomCards == s0.bedroomCards
                      && s1.closetCards == s0.closetCards && s1.oneHitCards == s0.oneHitCards;
      match e
      case WinCheck => ps == ps0 && s1.phase == AfterWinCheck(s0.phase, ps0[turn]) && sameRest
      case Collect(amount) =>
        ps == ps0[turn := Collected(ps0[turn], amount)] && s1.phase == AfterWinCheck(s0.phase, ps[turn]) && sameRest
      case Pay(amount) => ps == ps0[turn := Paid(ps0[turn], amount)] && s1.phase == s0.phase && sameRest
      case SkipNextTurn => ps == ps0[turn := ps0[turn].(loseTurn := true)] && s1.phase == s0.phase && sameRest
      case SellBlood =>
        ps == ps0[turn := Collected(ps0[turn], inp.rolls[0])] && s1.phase == AfterWinCheck(s0.phase, ps[turn]) && sameRest
      case OrgyNight => OrgyOutcome(ps0, s0.phase, ps, s1.phase) && sameRest
      case Inferno =>
        ps == ps0[turn := Collected(ps0[turn], SumOf(inp.rolls[..5]))] && s1.phase == AfterWinCheck(s0.phase, ps[turn])
        && sameRest
      case _ => s1 == s0
    }

    /** What each landing effect that moves the token asks the engine to do
        next. Nothing else changes, except that roll-again spaces reset the
        phase to StartTurn and High Tension Towers sets the lose-turn flag on
        1-9; Feat on Track jumps to the space its scan finds, and ends in place
        only when the scan finds none. */
    ghost predicate MoveOutcome(e: Effect, inp: Inputs, s0: Snapshot, s1: Snapshot, next: NextAction)
      reads this
      requires turn < |s0.players| && |inp.rolls| >= 1
    {
      var ps0 := s0.players;
      match e
      case GoTo(dest) => next == Teleport(dest) && s1 == s0
      case RollAgainHere => next == RollAgain && s1 == s0.(phase := Phase.StartTurn)
      case HighTensionTowers =>
        if inp.rolls[0] <= 9 then next == Done && s1 == s0.(players := ps0[turn := ps0[turn].(loseTurn := true)])
        else next == ForcedMove(inp.rolls[0], CW) && s1 == s0
      case FeatOnTrack =>
        s1 == s0 && IsSpace(ps0[turn].pos)
        && if next.Teleport? then FeatScan(ps0, turn, ps0[turn].pos, Some(next.dest))
           else next == Done && FeatScan(ps0, turn, ps0[turn].pos, None)
      case Russians => next == ForcedMove(inp.rolls[0], inp.direction) && s1 == s0
      case TookTooMuch => next == ForcedMove(inp.rolls[0], CCW) && s1 == s0
      case _ => next == Done && s1 == s0
    }

    /** `LandingOutcome` for the effects that open a dialog with the players. */
    ghost predicate DialogOutcome(e: Effect, inp: Inputs, s0: Snapshot, s1: Snapshot)
      reads this
      requires LandingFits(e, inp, s0)
    {
      var (ps0, ps) := (s0.players, s1.players);
      var sameDecks := s1.bedroomCards == s0.bedroomCards && s1.closetCards == s0.closetCards
                       && s1.oneHitCards == s0.oneHitCards;
      var sameRest := s1.stash == s0.stash && sameDecks;
      match e
      case BattleRap => BattleRapOutcome(inp.opponent, inp.rolls[0], inp.rolls[1], ps0, s0.phase, ps, s1.phase) && sameRest
      case FakeFamily => FakeFamilyOutcome(inp.opponent, inp.rolls[0], inp.rolls[1], ps0, ps) && s1.phase == s0.phase && sameRest
      case Blackmail => BlackmailOutcome(inp.opponent, inp.answer, ps0, s0.phase, ps, s1.phase) && sameRest
      case BasementAttempt => BasementOutcome(inp.rolls[0], inp.opponent, inp.pick, ps0, ps) && s1.phase == s0.phase && sameRest
      case HookahLounge => HookahOutcome(inp.guess, ps0, s0.phase, ps, s1.phase) && sameRest
      case Robbed(toStash) =>
        RobbedOutcome(toStash, inp.loss, inp.pick, ps0, s0.stash, ps, s1.stash) && s1.phase == s0.phase && sameDecks
      case _ => s1 == s0
    }

    /** `LandingOutcome` for the effects that draw a card or give cards away. */
    ghost predicate CardOutcome(e: Effect, inp: Inputs, s0: Snapshot, s1: Snapshot)
      reads this
      requires LandingFits(e, inp, s0)
    {
      var (ps0, ps) := (s0.players, s1.players);
      var sameDecks := s1.bedroomCards == s0.bedroomCards && s1.closetCards == s0.closetCards
                       && s1.oneHitCards == s0.oneHitCards;
      match e
      case DrawCloset =>
        var card := s0.closetCards[0];
        && s1.closetCards == Shuffled(s0.closetCards[1..] + [card], inp.draws)
        && ClosetOutcome(card, inp.opponent, inp.rolls[0], ps0, s0.phase, ps, s1.phase)
        && s1.stash == s0.stash && s1.bedroomCards == s0.bedroomCards && s1.oneHitCards == s0.oneHitCards
      case DrawBedroomShop =>
        && BedroomShopOutcome(inp.draws, s0.bedroomCards, ps0, s0.phase, s1.bedroomCards, ps, s1.phase)
        && s1.stash == s0.stash && s1.closetCards == s0.closetCards && s1.oneHitCards == s0.oneHitCards
      case DrawOneHit =>
        && OneHitDrawOutcome(inp.draws, s0.oneHitCards, ps0, s1.oneHitCards, ps) && s1.phase == s0.phase
        && s1.stash == s0.stash && s1.bedroomCards == s0.bedroomCards && s1.closetCards == s0.closetCards
      case BlewItAll => BlewItAllOutcome(ps0, s0.stash, ps, s1.stash) && s1.phase == s0.phase && sameDecks
      case _ => s1 == s0
    }

    /** `resolveSpace(p.pos)` for the current player: the effect of the space,
        and what the engine must do next instead of recursing (move again,
        roll again, or land elsewhere). */
    method ResolveSpace(inp: Inputs) returns (next: NextAction)
      requires Valid() && InputsFit(inp)
      modifies this`players, this`phase, this`kalifStash, this`oneHitDeck, bedroomDeck, closetDeck, oneHitDeck
      ensures Valid()
      ensures var e := EffectOf(old(players[turn].pos));
              if Moves(e) then MoveOutcome(e, inp, old(Snap()), Snap(), next)
              else next == Done && LandingOutcome(e, inp, old(Snap()), Snap())
      ensures next == RollAgain ==> phase == Phase.StartTurn
      ensures next.Teleport? || next.ForcedMove? ==> phase == old(phase)
      ensures next.Teleport? ==> IsSpace(next.dest)
      ensures next.ForcedMove? ==> 1 <= next.steps <= 20
    {
      var e := EffectOf(players[turn].pos);
      if Moves(e) {
        next := ApplyMove(e, inp);
      } else {
        ApplyInPlace(e, inp);
        next := Done;
      }
    }

    /** The effects that move the token on: they only say where it goes. */
    method ApplyMove(e: Effect, inp: Inputs) returns (next: NextAction)
      requires Valid() && InputsFit(inp) && e == EffectOf(players[turn].pos) && Moves(e)
      modifies this`players, this`phase
      ensures Valid()
      ensures MoveOutcome(e, inp, old(Snap()), Snap(), next)
      ensures next == RollAgain ==> phase == Phase.StartTurn
      ensures next.Teleport? || next.ForcedMove? ==> phase == old(phase)
      ensures next.Teleport? ==> IsSpace(next.dest)
      ensures next.ForcedMove? ==> 1 <= next.steps <= 20
    {
      next := Done;
      match e
      case GoTo(dest) =>
        next := Teleport(dest);
      case RollAgainHere =>
        phase := Phase.StartTurn;
        next := RollAgain;
      case HighTensionTowers =>
        next := HighTensionTowers(inp.rolls[0]);
      case FeatOnTrack =>
        var target := FeatTarget();
        if target.Some? {
          next := Teleport(target.value);
        }
      case Russians =>
        next := ForcedMove(inp.rolls[0], inp.direction);
      case TookTooMuch =>
        next := ForcedMove(inp.rolls[0], CCW);
      case _ =>
    }

    /** The effects that leave the token where it is; an effect that moves the
        token does nothing here. */
    method ApplyInPlace(e: Effect, inp: Inputs)
      requires Valid() && InputsFit(inp) && e == EffectOf(players[turn].pos)
      modifies this`players, this`phase, this`kalifStash, this`oneHitDeck, bedroomDeck, closetDeck, oneHitDeck
      ensures Valid()
      ensures LandingOutcome(e, inp, old(Snap()), Snap())
    {
      if Plain(e) {
        ApplyPlainEffect(e, inp);
      } else if AsksPlayers(e) {
        ApplyDialogEffect(e, inp);
      } else if HandlesCards(e) {
        ApplyCardEffect(e, inp);
      }
    }

    /** The landing effects that only settle with the bank, set a flag or run
        the win check: First of the Month, the Living Room, the plain collect
        and pay spaces, the lose-turn spaces, Sell Blood (collect one d20
        roll), Orgy Night and the Inferno. */
    method ApplyPlainEffect(e: Effect, inp: Inputs)
      requires Valid() && InputsFit(inp) && e == EffectOf(players[turn].pos) && Plain(e)
      modifies this`players, this`phase
      ensures Valid()
      ensures PlainOutcome(e, inp, old(Snap()), Snap())
    {
      match e
      case WinCheck =>
        CheckWinImmediate(turn);
      case Free =>
      case Collect(amount) =>
        BankCollect(turn, amount);
      case Pay(amount) =>
        BankPay(turn, amount);
      case SkipNextTurn =>
        players := players[turn := players[turn].(loseTurn := true)];
      case SellBlood =>
        BankCollect(turn, inp.rolls[0]);
      case OrgyNight =>
        OrgyNight();
      case Inferno =>
        Inferno(inp.rolls);
      case _ =>
    }

    /** The landing effects that ask the players something: the duels,
        Blackmail, the Basement steal, the Hookah guess and the Robbed choice. */
    method ApplyDialogEffect(e: Effect, inp: Inputs)
      requires Valid() && InputsFit(inp) && e == EffectOf(players[turn].pos) && AsksPlayers(e)
      modifies this`players, this`phase, this`kalifStash
      ensures Valid()
      ensures DialogOutcome(e, inp, old(Snap()), Snap())
    {
      match e
      case BattleRap =>
        BattleRap(inp.opponent, inp.rolls[0], inp.rolls[1]);
      case FakeFamily =>
        FakeFamily(inp.opponent, inp.rolls[0], inp.rolls[1]);
      case Blackmail =>
        Blackmail(inp.opponent, inp.answer);
      case BasementAttempt =>
        BasementAttempt(inp.rolls[0], inp.opponent, inp.pick);
      case HookahLounge =>
        HookahLounge(inp.guess);
      case Robbed(toStash) =>
        RobbedChoice(toStash, inp.loss, inp.pick);
      case _ =>
    }

    /** The landing effects that draw a card or give cards away. */
    method ApplyCardEffect(e: Effect, inp: Inputs)
      requires Valid() && InputsFit(inp) && e == EffectOf(players[turn].pos) && HandlesCards(e)
      modifies this`players, this`phase, this`kalifStash, this`oneHitDeck, bedroomDeck, closetDeck, oneHitDeck
      ensures Valid()
      ensures CardOutcome(e, inp, old(Snap()), Snap())
    {
      match e
      case DrawCloset =>
        DrawCloset(inp.draws, inp.opponent, inp.rolls[0]);
      case DrawBedroomShop =>
        DrawBedroomShop(inp.draws);
      case DrawOneHit =>
        DrawOneHit(inp.draws);
      case BlewItAll =>
        BlewItAll();
      case _ =>
    }

    /** `state.phase = p`, which keeps the game valid. */
    method EnterPhase(p: Phase)
      requires Valid()
      modifies this`phase
      ensures Valid() && phase == p
    {
      phase := p;
    }

    /** The landing step that follows the decision moment before resolving:
        the phase passes through Resolving while the space takes effect, and
        a landing that does not move the player on ends in AfterResolve unless
        the game is over. */
    method ResolveLanding(inp: Inputs) returns (next: NextAction)
      requires Valid() && InputsFit(inp)
      modifies this`players, this`phase, this`kalifStash, this`oneHitDeck, bedroomDeck, closetDeck, oneHitDeck
      ensures Valid()
      ensures old(phase) == GameOver ==>
                next == Done && phase == GameOver && players == old(players) && kalifStash == old(kalifStash)
      ensures old(phase) != GameOver && next == Done ==> phase == AfterResolve || phase == GameOver
      ensures old(phase) != GameOver && next == RollAgain ==> phase == Phase.StartTurn
      ensures old(phase) != GameOver && (next.Teleport? || next.ForcedMove?) ==> phase == Resolving
      ensures next.Teleport? ==> IsSpace(next.dest)
      ensures next.ForcedMove? ==> 1 <= next.steps <= 20
    {
      if phase == GameOver {
        return Done;
      }
      EnterPhase(Resolving);
      next := ResolveSpace(inp);
      if next == Done && phase != GameOver {
        EnterPhase(AfterResolve);
      }
    }

    // ---------------------------------------------------------------
    // Playing a One Hit Wonder
    // ---------------------------------------------------------------

    /** The card leaves its owner's hand, goes back into the deck, which is
        reshuffled, and then takes effect. */
    method ResolveOneHit(owner: nat, handIndex: nat, target: Option<nat>, draws: seq<nat>)
      requires Valid() && owner < |players| && handIndex < |players[owner].oneHit|
      requires OtherOrCancel(owner, target) && EnoughDraws(|oneHitDeck.cards| + 1, draws)
      modifies this`players, this`phase, this`turn, this`lastRoll, oneHitDeck
      ensures Valid() && |players| == |old(players)|
      ensures var card := old(players[owner].oneHit[handIndex]);
              oneHitDeck.cards == Shuffled(old(oneHitDeck.cards) + [card], draws)
              && multiset(oneHitDeck.cards) == multiset(old(oneHitDeck.cards)) + multiset{card}
      ensures players[owner].oneHit == RemoveAt(old(players[owner].oneHit), handIndex)
      ensures OneHitOutcome(old(players[owner].oneHit[handIndex]), owner, target,
                            old(players)[owner := old(players[owner]).(oneHit := RemoveAt(old(players[owner].oneHit), handIndex))],
                            TotalCash(old(players)), old(players[owner].cash), old(phase), old(turn), old(lastRoll))
    {
      var card := players[owner].oneHit[handIndex];
      var p := players[owner];
      ghost var before := players;
      players := players[owner := p.(oneHit := RemoveAt(p.oneHit, handIndex))];
      TotalCashUpdate(before, owner, players[owner]);
      oneHitDeck.PutBackAndShuffle(card, draws);
      OneHitEffect(owner, card, target);
    }

    /** What a One Hit Wonder `card` played by `owner` does, from the player
        records `ps1` (the card already out of the hand; `total` and
        `ownerCash` as before it was played) and the phase, turn and last
        roll before it: a bank payout with its win check, a queued extra
        turn, a position swap with both win checks, $10 from every other
        player (cash is only moved between players), or a Mic Drop, which
        ends the turn at once when it hits the player whose turn it is. */
    ghost predicate OneHitOutcome(card: OneHitCard, owner: nat, target: Option<nat>, ps1: seq<Player>,
                                  total: int, ownerCash: int, phase0: Phase, turn0: nat, roll0: Option<D20>)
      reads this
      requires owner < |ps1| && turn0 < |ps1| && (target.Some? ==> target.value < |ps1|)
      requires forall j :: 0 <= j < |ps1| ==> ps1[j].cash >= 0
    {
      && (card != MicDrop ==> turn == turn0 && lastRoll == roll0)
      && (card.BankCollect? ==>
            players == ps1[owner := Collected(ps1[owner], card.amount)]
            && phase == AfterWinCheck(phase0, players[owner]))
      && (card == Encore ==>
            players == ps1[owner := ps1[owner].(extraTurnQueued := ps1[owner].extraTurnQueued + 1)]
            && phase == phase0)
      && (card == Swap ==>
            if target.None? then players == ps1 && phase == phase0
            else target.value != owner && players == SwapPos(ps1, owner, target.value)
                 && phase == AfterWinCheck(AfterWinCheck(phase0, players[owner]), players[target.value]))
      && (card == OneHitCard.GoatTax ==>
            && |players| == |ps1| && TotalCash(players) == total
            && (forall j :: 0 <= j < |players| && j != owner ==> players[j] == Paid(ps1[j], 10))
            && players[owner].cash >= ownerCash
            && phase == AfterWinCheck(phase0, players[owner]))
      && (card == MicDrop ==>
            if target.None? then players == ps1 && phase == phase0 && turn == turn0 && lastRoll == roll0
            else
              var t := target.value;
              var dropped := ps1[t := ps1[t].(loseTurn := true)];
              if t != turn0 then
                players == dropped && turn == turn0 && phase == phase0 && lastRoll == roll0
              else if phase0 != GameOver then
                phase == Phase.StartTurn && lastRoll == None
                && Rota(players, turn) == EndTurnSpec(dropped, turn0, true)
              else
                phase == GameOver && players == dropped && turn == (turn0 + 1) % |ps1|)
    }

    /** The effect part of `resolveOneHit`, once the card is out of the hand. */
    method OneHitEffect(owner: nat, card: OneHitCard, target: Option<nat>)
      requires Valid() && owner < |players| && OtherOrCancel(owner, target)
      modifies this`players, this`phase, this`turn, this`lastRoll
      ensures Valid() && |players| == |old(players)|
      ensures players[owner].oneHit == old(players[owner].oneHit)
      ensures OneHitOutcome(card, owner, target, old(players), TotalCash(old(players)), old(players[owner].cash),
                            old(phase), old(turn), old(lastRoll))
    {
      match card
      case BankCollect(amount) =>
        BankCollect(owner, amount);
      case Encore =>
        players := players[owner := players[owner].(extraTurnQueued := players[owner].extraTurnQueued + 1)];
      case Swap =>
        if target.Some? {
          SwapPositions(owner, target.value);
        }
      case GoatTax =>
        GoatTax(owner);
      case MicDrop =>
        if target.Some? {
          MicDropOn(target.value);
        }
    }

    /** The One Hit Wonder dialog: a hand holder and a card are chosen (either
        choice may be cancelled); a Mic Drop outside its window is refused and
        changes nothing. */
    method OpenOneHitSelector(who: Option<nat>, index: Option<nat>, target: Option<nat>, draws: seq<nat>)
      requires Valid() && SelectionFits(who, index, target, draws)
      modifies this`players, this`phase, this`turn, this`lastRoll, oneHitDeck
      ensures Valid()
      ensures who.None? || index.None? ==>
                players == old(players) && phase == old(phase) && turn == old(turn)
                && lastRoll == old(lastRoll) && oneHitDeck.cards == old(oneHitDeck.cards)
      ensures who.Some? && index.Some? && old(players[who.value].oneHit[index.value]) == MicDrop && !MicDropWindow(old(phase)) ==>
                players == old(players) && phase == old(phase) && turn == old(turn)
                && lastRoll == old(lastRoll) && oneHitDeck.cards == old(oneHitDeck.cards)
      ensures who.Some? && index.Some? && (old(players[who.value].oneHit[index.value]) != MicDrop || MicDropWindow(old(phase))) ==>
                && |players| == |old(players)|
                && players[who.value].oneHit == RemoveAt(old(players[who.value].oneHit), index.value)
                && multiset(oneHitDeck.cards) == multiset(old(oneHitDeck.cards)) + multiset{old(players[who.value].oneHit[index.value])}
    {
      if who.None? || index.None? {
        return;
      }
      var card := players[who.value].oneHit[index.value];
      if card == MicDrop && !MicDropWindow(phase) {
        return;
      }
      ResolveOneHit(who.value, index.value, target, draws);
    }

    /** What the One Hit Wonder dialog can offer: only holders of a card, only
        a card in that holder's hand, only another player as target. */
    predicate SelectionFits(who: Option<nat>, index: Option<nat>, target: Option<nat>, draws: seq<nat>)
      reads this, oneHitDeck
    {
      && (who.Some? ==> who.value < |players| && |players[who.value].oneHit| > 0 && OtherOrCancel(who.value, target))
      && (index.Some? ==> who.Some? && who.value < |players| && index.value < |players[who.value].oneHit|)
      && EnoughDraws(|oneHitDeck.cards| + 1, draws)
    }

    /** The choices a decision-moment menu can return, well formed. */
    predicate DecisionFits(d: Decision)
      reads this, oneHitDeck
      requires turn < |players|
    {
      match d
      case Continue => true
      case PlayOneHit(who, index, target, draws) => SelectionFits(who, index, target, draws)
      case UseBedroomSwap(target) => OtherOrCancel(turn, target)
    }

    /** A decision moment: nothing once the game is over; otherwise Continue,
        a One Hit Wonder or the Bedroom Swap. */
    method DecisionMoment(d: Decision)
      requires Valid() && DecisionFits(d)
      modifies this`players, this`phase, this`turn, this`lastRoll, oneHitDeck
      ensures Valid()
      ensures old(phase) == GameOver || d == Continue ==>
                players == old(players) && phase == old(phase) && turn == old(turn)
                && lastRoll == old(lastRoll) && oneHitDeck.cards == old(oneHitDeck.cards)
      ensures old(phase) != GameOver && d.UseBedroomSwap? ==>
                turn == old(turn) && lastRoll == old(lastRoll) && oneHitDeck.cards == old(oneHitDeck.cards)
                && if HasBedroom(old(players[turn]), SwapAnyBedroom) && d.target.Some?
                   then players == SwapPos(old(players), turn, d.target.value)
                        && phase == AfterWinCheck(AfterWinCheck(old(phase), players[turn]), players[d.target.value])
                   else players == old(players) && phase == old(phase)
    {
      if phase == GameOver {
        return;
      }
      match d
      case Continue =>
      case PlayOneHit(who, index, target, draws) =>
        OpenOneHitSelector(who, index, target, draws);
      case UseBedroomSwap(target) =>
        TryBedroomSwap(target);
    }

    /** The Decision button: honoured only outside movement, zoom, resolution
        and the end of the game. */
    method DecisionButton(d: Decision)
      requires Valid() && DecisionFits(d)
      modifies this`players, this`phase, this`turn, this`lastRoll, oneHitDeck
      ensures Valid()
      ensures !DecisionAvailable(old(phase)) || d == Continue ==>
                players == old(players) && phase == old(phase) && turn == old(turn)
                && lastRoll == old(lastRoll) && oneHitDeck.cards == old(oneHitDeck.cards)
    {
      if !DecisionAvailable(phase) {
        return;
      }
      DecisionMoment(d);
    }
  }
}
