/** What each of the 37 spaces does when a token stops on it, and what a
    landing asks the turn engine to do next. */
module Board {
  import opened Track

  /** The effect kinds of `resolveSpace`. */
  datatype Effect =
    | WinCheck                     // First of the Month
    | Free                         // Living Room
    | Collect(amount: nat)
    | Pay(amount: nat)
    | GoTo(dest: int)              // transported to another space
    | SkipNextTurn
    | BattleRap
    | BasementAttempt
    | HookahLounge
    | FakeFamily
    | SellBlood
    | DrawCloset
    | RollAgainHere
    | Robbed(toStash: bool)        // to Kalif's stash or simply lost
    | BlewItAll
    | DrawBedroomShop
    | Blackmail
    | HighTensionTowers
    | FeatOnTrack
    | OrgyNight
    | DrawOneHit
    | Russians
    | Inferno
    | TookTooMuch

  /** The dispatch of `resolveSpace`, one case per space. */
  function EffectOf(space: int): (e: Effect)
    requires IsSpace(space)
    ensures e.GoTo? ==> e.dest in {7, 20, 34}
    ensures Moves(e) <==> space in {2, 12, 14, 16, 19, 24, 25, 27, 29, 30, 32, 36}
  {
    match space
    case 0 => Free
    case 1 => Collect(5)
    case 2 => GoTo(20)
    case 3 => SkipNextTurn
    case 4 => WinCheck
    case 5 => BattleRap
    case 6 => BasementAttempt
    case 7 => HookahLounge
    case 8 => Pay(5)
    case 9 => FakeFamily
    case 10 => SellBlood
    case 11 => DrawCloset
    case 12 => RollAgainHere
    case 13 => Pay(5)
    case 14 => RollAgainHere
    case 15 => Robbed(false)
    case 16 => GoTo(7)
    case 17 => BlewItAll
    case 18 => SkipNextTurn
    case 19 => GoTo(34)
    case 20 => DrawBedroomShop
    case 21 => Blackmail
    case 22 => BasementAttempt
    case 23 => Pay(5)
    case 24 => HighTensionTowers
    case 25 => FeatOnTrack
    case 26 => OrgyNight
    case 27 => GoTo(34)
    case 28 => DrawOneHit
    case 29 => Russians
    case 30 => GoTo(7)
    case 31 => Pay(10)
    case 32 => RollAgainHere
    case 33 => DrawCloset
    case 34 => Inferno
    case 35 => Robbed(true)
    case _ => TookTooMuch
  }

  /** What the engine does after a landing effect: end the landing, roll
      again, or move the token and land once more. */
  datatype NextAction =
    | Done
    | RollAgain
    | Teleport(dest: int)
    | ForcedMove(steps: nat, dir: Dir)

  /** Effects that move the current player's token on to another landing. */
  predicate Moves(e: Effect) {
    e.GoTo? || e == RollAgainHere || e == HighTensionTowers || e == FeatOnTrack
    || e == Russians || e == TookTooMuch
  }

  /** The landing effects that only settle with the bank, set a flag or run
      the win check. */
  predicate Plain(e: Effect) {
    e == WinCheck || e == Free || e.Collect? || e.Pay? || e == SkipNextTurn
    || e == SellBlood || e == OrgyNight || e == Inferno
  }

  /** The landing effects that open a dialog with the players: the duels,
      Blackmail, the Basement steal, the Hookah guess and the Robbed choice. */
  predicate AsksPlayers(e: Effect) {
    e == BattleRap || e == FakeFamily || e == Blackmail || e == BasementAttempt
    || e == HookahLounge || e.Robbed?
  }

  /** The landing effects that draw a card or give cards away. */
  predicate HandlesCards(e: Effect) {
    e == DrawCloset || e == DrawBedroomShop || e == DrawOneHit || e == BlewItAll
  }

  /** The transport spaces: s2 -> s20, s16 and s30 -> s7, s19 and s27 -> s34. */
  lemma TransportTable(space: int)
    requires IsSpace(space)
    ensures EffectOf(space) == GoTo(20) <==> space == 2
    ensures EffectOf(space) == GoTo(7) <==> space == 16 || space == 30
    ensures EffectOf(space) == GoTo(34) <==> space == 19 || space == 27
    ensures EffectOf(space).GoTo? <==> space in {2, 16, 19, 27, 30}
  {
  }

  /** A transport never chains: its destination is a space whose own effect
      does not move the token. */
  lemma TransportsDoNotChain(space: int)
    requires IsSpace(space) && EffectOf(space).GoTo?
    ensures IsSpace(EffectOf(space).dest) && !Moves(EffectOf(EffectOf(space).dest))
  {
  }

  /** Roll again on s12, s14, s32; lose the next turn on s3 and s18; the win
      check only on s4. */
  lemma SpecialSpaces(space: int)
    requires IsSpace(space)
    ensures EffectOf(space) == RollAgainHere <==> space in {12, 14, 32}
    ensures EffectOf(space) == SkipNextTurn <==> space in {3, 18}
    ensures EffectOf(space) == WinCheck <==> space == WinSpace
  {
  }
}
