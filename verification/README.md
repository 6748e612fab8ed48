# Turn engine of the Lekter board game, in Dafny

This project models the game-state core of `app.js`, the single script of a
browser board game for two to six players. The game has these parts:

- The track has 37 spaces. s0..s3 lead into a ring s4..s36, and s36 wraps round to s4.
- s4, "First of the Month", is both the fork and the win space: a player who stands on it with $200 or more wins.
- There are three decks:
  - Bedroom Shop resources (6 cards);
  - the Closet of Shame, with a d20 rule table on each card (7 cards);
  - One Hit Wonders (5 cards).
- A phase machine drives each turn: roll, move, zoom, resolve the space and end the turn. Players can lose a turn, queue extra turns, use a once-per-turn +1 move, and play One Hit Wonders in "decision moments".

The model is organised in these modules:

| module | file | what it holds |
|---|---|---|
| `Track` | `track.dfy` | the track topology (`nextCW`, `prevCCW`, the fork test) |
| `Path` | `path.dfy` | `Walk`, the pure path rule of `computeDestination`, with the fork answers as a sequence |
| `Cards` | `cards.dfy` | the card sets, the Closet rule tables and `rules.find` |
| `Decks` | `deck.dfy` | `makeDeck` as a class `Deck<C>` |
| `Players` | `players.dfy` | the player record and the value-level economy rules |
| `Turns` | `turns.dfy` | the phases, and `startTurn`/`endTurnInternal` as functions |
| `Board` | `board.dfy` | the `resolveSpace` dispatch table, and the "next action" a landing returns |
| `Engine` | `game.dfy` | the class `Game` |

More on the larger modules:

- `Deck<C>`: the Fisher–Yates shuffle is a loop over a `cards` sequence. It is proved equal to a specification function, and that function is proved to be a permutation.
- `Turns`: the skip chain of `startTurn`/`endTurnInternal` is proved to terminate, because every skip clears one lose-turn flag.
- `Game` holds `state.game` and `state.phase`. Every imperative operation of the core is a method on it: the economy, the win check, the step-by-step walk, the turn flow, every landing effect, the One Hit Wonders and the decision moments. Each method is proved against the functions of the modules above.

Everything that is random or asked of a person becomes a parameter:
- dice are `D20` values;
- shuffle draws and random card indices are `nat`s reduced modulo the range;
- fork answers, picked players, Hookah guesses, Robbed and Blackmail answers, the Russians' direction and the One Hit Wonder choices are explicit arguments, where `None` stands for Cancel.

A player is identified by its index in `players`, as the source's `id` is.

The code has a few rules worth stating plainly, and the model follows them:
- Payments are clamped to the payer's cash, so cash never goes negative. There is no debt and no elimination.
- The Bedroom Shop deck never shrinks. A drawn card is put back and reshuffled, and the player receives a copy. `Valid()` states that the deck always holds exactly the full set.
- The One Hit Wonder deck is refilled with a fresh full set only when it is empty. Cards played are returned to it, so duplicates can appear.

Consequences of the code that the proofs make visible:
- `Engine.Game.ComputeDestination`: the pass bonus can never end the game inside a walk. The win check looks at the stored position, which is still the start of the walk, and a walk that starts on s4 never crosses s3 → s4.
- `Engine.Game.FakeFamily`: the duel prize of Fake Family can never end the game, because both duellists are first sent to s0.
- `Path.UpBounces`: answering "up" at every fork keeps a player bouncing between s3 and s4, collecting the pass bonus on every second step.
- `Turns.MicDropOnSelfCostsNextTurn`: a Mic Drop on the player whose turn it is ends that turn at once and leaves their lose-turn flag set, so they also lose their next turn.
- `Engine.Game.MoveByRoll`: if that Mic Drop is played right after the roll, the suspended `doRoll` continues with the cleared roll. The next player then moves zero steps.

## Model

| member | source | states |
|---|---|---|
| Track.NextCW | app.js:254-258 | the clockwise successor of a space is a space, and from the ring it stays on the ring |
| Track.PrevCCW | app.js:259-263 | the counter-clockwise predecessor is a space, and is on the ring exactly when the space is |
| Track.Junctions | app.js:254-263 | nextCW(36)=4, nextCW(4)=5, nextCW(3)=4, prevCCW(4)=36, prevCCW(0)=3 |
| Track.ForkCrossOnlyFromS3 | app.js:254-266 | a clockwise step is the s3 → s4 fork crossing if and only if it starts on s3 |
| Track.StepsUndoEachOther | app.js:254-263 | the two directions are inverse except at the junctions s3 → s4 and s0 → s3, where they lead to s36 and s4 |
| Track.IterCW | app.js:967-977 | k clockwise steps from a space (the `featOnTrack` scan) stay on the track, and stay on the ring from the ring |
| Track.IterCWStep | app.js:969-971 | one more scan step is one more `nextCW` at the end |
| Track.IterCWOnRing | app.js:254-258 | on the ring, k clockwise steps are addition modulo 33 |
| Track.IterCWFromEntry | app.js:254-258 | from s0..s3, k clockwise steps climb to s4 and then go round the ring |
| Track.RingReachable | app.js:957-978 | every ring space is reached clockwise from any space within 37 steps, so within the scan's 200-step cap |
| Path.Walk | app.js:431-458 | a walk of `steps` ends on a space and makes at most `steps` fork crossings |
| Path.StepFrom | app.js:436-453 | one step of the walk stays on the track, and it is a crossing exactly when it goes clockwise from s3 |
| Path.RingStep | app.js:254-258 | a clockwise step on the ring with no answer pending stays on the ring and crosses nothing |
| Path.WalkAdvance | app.js:435-454 | a walk is its first step followed by the rest of the walk; a crossing uses up one fork answer and counts one pass |
| Path.ResumeStep | app.js:435-454 | after each step of the loop, the remaining steps still reach the walk's destination and complete its count of passes |
| Path.WalkZero | app.js:435 | a zero-step move stays put and pays nothing |
| Path.CrossingLandsOnWinSpace | app.js:438-444 | a clockwise crossing from s3 lands on s4, uses one step and one fork answer, and counts one pass |
| Path.UpGoesBackToS3 | app.js:446-448 | after the answer "up", the next clockwise step from s4 goes back to s3 |
| Path.StraightContinuesToS5 | app.js:449-453 | after the answer "straight", the walk goes on from s4 to s5 |
| Path.CCWNeverCrosses | app.js:425-429 | a counter-clockwise walk never crosses the fork, so it never pays the pass bonus |
| Path.RingWalkCW | app.js:431-458 | clockwise from the ring with no answer pending, a walk is addition modulo 33 and crosses nothing |
| Path.RingWalkCCW | app.js:259-263 | counter-clockwise on the ring, a walk is subtraction modulo 33 |
| Path.EntryWalkCCW | app.js:259-263 | counter-clockwise from s0..s3, a walk cycles within s0..s3 and never reaches the ring |
| Path.FromStartRollFour | app.js:431-458 | a roll of 4 from s0 lands on s4 after exactly one crossing, whatever the answer |
| Path.UpBounces | app.js:438-453 | always answering "up" bounces between s3 and s4, with one crossing per two steps |
| Path.OneStepWalk | app.js:1157-1163 | the one-step walk of the +1 move goes to `nextCW(pos)` and crosses only from s3; the fork answer is never used |
| Cards.FindRule | app.js:851 | `rules.find` returns the first rule covering the roll, or none when no rule covers it |
| Cards.FindRuleUnique | app.js:860 | on a table that partitions [1,20], the lookup finds the one and only covering rule |
| Cards.SplitAtTenPartitions | app.js:286-308 | a table 1-9 / 10-20 partitions [1,20] |
| Cards.SplitAroundTenPartitions | app.js:292-294 | a table 1-9 / 10 / 11-20 partitions [1,20] |
| Cards.ClosetTablesPartition | app.js:286-308 | every Closet of Shame table partitions [1,20] |
| Cards.ClosetRuleUnique | app.js:851-862 | for every Closet card and every d20 roll, exactly one rule applies, and `rules.find` returns it |
| Decks.SwapPermutes | app.js:353 | one swap of the shuffle keeps the multiset of cards |
| Decks.ShuffleDown | app.js:350-355 | the Fisher–Yates passes i = top down to 1, each swapping position i with the draw reduced into [0, i]; the length is kept |
| Decks.Shuffled | app.js:350-355 | the order `shuffle()` leaves for the given draws; same length, and a permutation by `ShufflePermutes` |
| Decks.ShuffleDownPermutes | app.js:350-355 | the remaining Fisher–Yates passes keep the multiset of cards |
| Decks.ShufflePermutes | app.js:350-355 | a shuffle is a permutation: same cards with the same multiplicities |
| Decks.PutBackAddsCard | app.js:360-363 | putting a card back and reshuffling adds exactly that card to the multiset |
| Decks.DrawThenPutBack | app.js:840-841 | drawing the front card and putting it straight back leaves the deck's multiset unchanged |
| Decks.Deck.constructor | app.js:346-347 | a new deck holds the given cards in order |
| Decks.Deck.Shuffle | app.js:350-355 | the in-place loop leaves `Shuffled(old cards, draws)`, a permutation of the old cards |
| Decks.Deck.Draw | app.js:356-359 | an empty deck returns none and stays empty; otherwise the front card is removed and returned |
| Decks.Deck.PutBackAndShuffle | app.js:360-363 | the cards become `Shuffled(old cards + [card])`, whose multiset is the old one plus the card |
| Players.NewPlayer | app.js:1211-1229 | a new player is on s0 with $100, empty hands, no flags and no queued turns |
| Players.Collected | app.js:371-374 | `bankCollect` adds the amount, or exactly twice the amount if and only if 2X MONEY is held; nothing else changes |
| Players.Paid | app.js:380-383 | `bankPay` takes min(cash, amount): the new cash is 0 when short and otherwise cash − amount, never negative |
| Players.DebitIsClamped | app.js:381 | the amount taken is between 0 and both the amount due and the cash held |
| Players.Transfer | app.js:387-390 | `payPlayer` moves the amount from the payer to the payee, leaves everyone else unchanged and keeps the total cash |
| Players.PassesAdd | app.js:425-429 | m pass bonuses and then n more pay the same as m + n bonuses |
| Players.RemoveAt | app.js:592 | `splice(k, 1)` drops exactly element k: the indices shift and the multiset loses just that element |
| Players.Reversed | app.js:901-903 | repeated `pop()`s hand out as many elements as there are |
| Players.ReversedIndex | app.js:901-903 | the i-th popped element is the (n−1−i)-th of the list |
| Players.ReversedPermutes | app.js:901-903 | popping everything loses nothing and invents nothing (same multiset) |
| Players.ReversedPop | app.js:901-903 | popping one more element extends the popped order by that element |
| Turns.StartTurnSpec | app.js:1114-1132 | after `startTurn`, the current player has neither flag set, holdings are untouched, and no lose-turn flag is added; the skip chain terminates |
| Turns.EndTurnSpec | app.js:1170-1185 | the same for `endTurnInternal`: a queued extra turn or the next player, then `startTurn` |
| Turns.PassTurn | app.js:1174-1184 | the hand-over of `endTurnInternal` before `startTurn`: the turn index stays valid, holdings and lose-turn flags are untouched |
| Turns.ExtraTurnKeepsPlayer | app.js:1176-1181 | a queued extra turn keeps the same player, with one fewer queued |
| Turns.TurnPassesOn | app.js:1183-1184 | with no extra turn to use, the turn passes to (turn+1) mod the player count |
| Turns.SkipConsumesFlag | app.js:1125-1129 | a skipped turn strictly lowers the number of lose-turn flags |
| Turns.MicDropOnSelfCostsNextTurn | app.js:638-643 | a Mic Drop on the current player passes the turn on, and that player's lose-turn flag stays set |
| Turns.MicDropWindow | app.js:509-511 | Mic Drop is allowed only in StartTurn and AfterRoll: phases in which the Decision button works, and neither of a landing's two decision moments |
| Board.TransportTable | app.js:1034-1075 | s2 → s20, s16/s30 → s7 and s19/s27 → s34, and no other space transports |
| Board.TransportsDoNotChain | app.js:1021-1109 | a transport destination is a space whose own effect does not move the token again |
| Board.SpecialSpaces | app.js:1025-1072 | roll again exactly on s12/s14/s32, lose a turn exactly on s3/s18, the win check exactly on s4 |
| Board.EffectOf | app.js:1021-1108 | the space-to-effect table of `resolveSpace`: transports lead only to s7, s20 or s34, and an effect moves the token exactly on s2, s12, s14, s16, s19, s24, s25, s27, s29, s30, s32 and s36 |
| Engine.AfterWinCheck | app.js:396-408 | the phase becomes GameOver exactly when it already was GameOver or the player stands on s4 with ≥ $200; otherwise it is unchanged |
| Engine.DuelWinner | app.js:752-757 | nobody wins on equal rolls; otherwise the strictly higher roller wins |
| Engine.SumOf | app.js:1098-1099 | the total of n d20 rolls lies between n and 20n |
| Engine.Moved | app.js:431-458 | a walk changes only position and cash; cash grows only when moving clockwise while holding the pass card |
| Engine.Plus1Step | app.js:492-507 | the +1 step happens if and only if the card is held, unused this turn and accepted; it changes only position, cash and the used flag |
| Engine.SwapPos | app.js:611-613 | two players trade positions and nothing else changes |
| Engine.SwapPosTwice | app.js:611-613 | a swap is undone by the same swap |
| Engine.Game.NewGame | app.js:1199-1249 | fewer than two players gives no game; otherwise `count` new players, turn 0, phase StartTurn, an empty stash and three shuffled full decks |
| Engine.Game.constructor | app.js:1211-1242 | the initial state, with every deck a shuffle of its card set |
| Engine.Game.CheckWinImmediate | app.js:396-408 | the phase after the check is `AfterWinCheck(old phase, player)` |
| Engine.Game.BankCollect | app.js:371-378 | the player becomes `Collected(player, amount)`, then the win check runs for that player |
| Engine.Game.BankPay | app.js:380-385 | the player becomes `Paid(player, amount)`, with no win check |
| Engine.Game.PayPlayer | app.js:387-394 | a `Transfer` of min(payer's cash, amount) that keeps the total cash; the win check runs for the payee |
| Engine.Game.ApplyPassBonus | app.js:425-429 | the current player collects the pass bonus; the win check runs only if the pass card is held |
| Engine.Game.WalkStep | app.js:436-453 | one step of the loop is the step of `StepFrom`; a crossing pays exactly one pass bonus and keeps the phase; the walk stays on course for its destination |
| Engine.Game.ComputeDestination | app.js:431-458 | the loop gives `Walk`'s destination and crossings, pays one pass bonus per crossing, and never changes the phase |
| Engine.Game.MaybeUsePlus1 | app.js:492-507 | the current player becomes `Plus1Step(player, accept)` |
| Engine.Game.MoveBy | app.js:1149-1168 | the current player becomes `Plus1Step(Moved(player, steps, dir), accept)`, and the phase reaches BeforeResolve |
| Engine.Game.TeleportTo | app.js:699-717 | the token is put on `dest` without a walk, then the +1 step is offered; the phase reaches BeforeResolve |
| Engine.Game.DoRoll | app.js:1134-1141 | the roll is stored and the phase is AfterRoll |
| Engine.Game.RequestRoll | app.js:1467-1471 | the Roll button acts only in StartTurn; otherwise nothing changes |
| Engine.Game.MoveByRoll | app.js:1143-1146 | nothing after GameOver; otherwise the move is by the stored roll, or by 0 steps when the roll was cleared |
| Engine.Game.StartTurn | app.js:1114-1132 | no-op in GameOver; otherwise the phase is StartTurn, there is no roll, and players and turn are as `StartTurnSpec` says |
| Engine.Game.EndTurnInternal | app.js:1170-1185 | the players and turn are as `EndTurnSpec` says; in GameOver only the hand-over of `PassTurn` happens |
| Engine.Game.EndTurn | app.js:1187-1194 | refused with no change outside StartTurn/AfterResolve; otherwise the result is `EndTurnSpec` with the extra-turn queue honoured |
| Engine.Game.SwapPositions | app.js:608-623 | positions are swapped, then the win check runs for both players in order |
| Engine.Game.TryBedroomSwap | app.js:650-671 | the swap happens only for a holder of the swap card who picks a target; otherwise nothing changes |
| Engine.Game.GoatTax | app.js:626-632 | every other player pays the owner min(cash, $10); the total cash is kept |
| Engine.Game.MicDropOn | app.js:634-647 | the target's lose-turn flag is set; a target who is the current player ends the turn at once, skipping the extra-turn queue |
| Engine.Game.BattleRap | app.js:743-758 | nothing on Cancel or a tie; otherwise the strictly higher roller collects $20 |
| Engine.Game.FakeFamily | app.js:813-834 | both duellists go to s0, then the duel is paid; the phase never changes |
| Engine.Game.BasementAttempt | app.js:760-790 | 1-9 loses a turn; otherwise one card moves from the victim to the player, and their combined multiset is kept |
| Engine.Game.HookahLounge | app.js:792-811 | $20 / $10 / $30 / nothing for artist / song / both / neither |
| Engine.Game.DrawCloset | app.js:836-863 | the card comes from the Closet set and is returned; the rule found for the roll is paid and/or collected, or is paid to the drawer by the picked player |
| Engine.Game.ApplyClosetRule | app.js:851-862 | the payment of the rule `rules.find` returns for the roll: the picked player pays the drawer, or the drawer pays and then, when the rule gives money, collects it with a win check; no covering rule changes nothing |
| Engine.Game.RobbedChoice | app.js:865-892 | lose $10 (clamped) or one random Bedroom card, which goes to Kalif's stash only on s35; Cancel changes nothing |
| Engine.Game.BlewItAll | app.js:894-905 | cash becomes 0, the Bedroom hand is emptied, and the stash gains those cards in pop order (same multiset) |
| Engine.Game.DrawBedroomShop | app.js:1077-1080 | the player gets a copy of the front card, the deck keeps its full set, and $5 is collected when "safe open" is held |
| Engine.Game.Blackmail | app.js:918-940 | the target pays the player $10 (clamped) or will lose a turn; Cancel changes nothing |
| Engine.Game.FeatTarget | app.js:957-978 | the first space within 200 clockwise steps that another player occupies; none only if no such space exists; always found when another player is on the ring |
| Engine.FeatScanUnique | app.js:957-978 | the scan has a single answer, so the Feat on Track jump that `MoveOutcome` allows is exactly the one the source makes |
| Engine.Game.DrawOneHit | app.js:980-994 | the front card goes to the player's hand; an empty deck is first replaced by a freshly shuffled full set |
| Engine.Game.ReseedOneHit | app.js:984-988 | the empty deck is replaced by a fresh deck holding a shuffle of the full One Hit Wonder set, which is not empty |
| Engine.Game.OrgyNight | app.js:1088-1090 | every player collects $10; the game ends exactly when some player wins |
| Engine.Game.Inferno | app.js:1097-1103 | the player collects the sum of five d20 rolls |
| Engine.Game.HighTensionTowers | app.js:942-955 | 1-9 loses a turn; otherwise a forced clockwise move of that many spaces |
| Engine.Game.ResolveSpace | app.js:1021-1109 | for every space: an effect that leaves the token in place returns Done and does what `LandingOutcome` says; a moving effect does what `MoveOutcome` says (a transport returns a Teleport, a roll-again space RollAgain in phase StartTurn, forced moves take 1-20 steps) |
| Engine.Game.ApplyInPlace | app.js:1021-1109 | `LandingOutcome`: each effect that leaves the token in place, as its group below states; a moving effect changes nothing here |
| Engine.Game.ApplyPlainEffect | app.js:1021-1109 | `PlainOutcome`: the win check on s4; s1 collects $5 with a win check; s8, s13 and s23 pay $5 and s31 pays $10, clamped, with no win check; s3 and s18 set the lose-turn flag; Sell Blood collects one d20 roll with a win check; Orgy Night and the Inferno as their methods state; the stash and the decks are untouched |
| Engine.Game.ApplyDialogEffect | app.js:1037-1104 | `DialogOutcome`: Battle Rap, Fake Family, Blackmail, the Basement, the Hookah guess and the Robbed choice, each as its outcome predicate states (the same predicates the effect methods ensure); the decks are untouched |
| Engine.Game.ApplyCardEffect | app.js:1021-1109 | `CardOutcome`: the Closet draw (deck reshuffled, then `ClosetOutcome`), the Bedroom Shop draw, the One Hit draw (from a fresh shuffled set when empty) and Blew It All; the other decks, and the stash except for Blew It All, are untouched |
| Engine.Game.ApplyMove | app.js:1021-1109 | `MoveOutcome`: transports ask for a Teleport to their destination, roll-again spaces reset the phase to StartTurn, High Tension Towers sets the lose-turn flag on 1-9 and otherwise asks for a forced move, Feat jumps to the first space its 200-step clockwise scan finds occupied (`FeatScan`), and ends in place only when the scan finds none, the Russians and Took Too Much ask for their forced moves; nothing else changes |
| Engine.Game.ResolveLanding | app.js:686-694 | nothing in GameOver; otherwise the phase passes through Resolving and a finished landing ends in AfterResolve or GameOver |
| Engine.Game.ResolveOneHit | app.js:589-647 | exactly the chosen card leaves the hand and returns to the deck; then the card's effect as `OneHitEffect` states it, on the players with that hand |
| Engine.Game.OneHitEffect | app.js:596-647 | the effect of each card kind: collect with a win check, one more queued turn, a swap with two win checks, Goat Tax keeping the total cash, or a Mic Drop that ends the current turn exactly when it hits the current player |
| Engine.Game.OpenOneHitSelector | app.js:542-587 | Cancel, or a Mic Drop outside StartTurn/AfterRoll, changes nothing; otherwise the card is played |
| Engine.Game.DecisionMoment | app.js:513-527 | no-op in GameOver or on Continue; otherwise plays a One Hit Wonder or tries the Bedroom swap, which ends with both players' win checks |
| Engine.Game.DecisionButton | app.js:1475-1480 | the button does nothing while moving, zooming or resolving, or after the game is over |

## Left out

- Presentation is not modelled, and neither is anything read from the page:
  - the DOM, the modal dialogs, the status panel and the log text;
  - canvas drawing, the camera, zoom easing and the render loop;
  - the board-coordinate mapping and its storage;
  - player names, colours and token coordinates;
  - the `!state.game` guards and the "board not mapped" refusal of a new game.
- The token animation of `animateMoveTo` is left out. Only its final effect is kept: the position is set to the destination.
- The waits are left out: the zoom delay and the `Zooming` phase are passed straight through.
- Randomness is not modelled. `Math.random` in the dice, the shuffle and the steal and loss index becomes supplied values.
- The asynchronous interleaving is not modelled. A decision moment is its own call (`DecisionMoment`), made by the caller where the source awaits the menu.
- Chained landings are driven by dice and need not terminate, so they are not modelled as recursion. These are roll-again, forced moves, transports and Feat. `ResolveSpace` returns the next action instead.
- The outer landing resumes after a chained landing. It then sets AfterResolve again and opens one more decision menu. This is not modelled.
- The Menu and Mapping screens and their buttons are not modelled.
- Integer width: JavaScript numbers are doubles. Cash in this game stays far below 2^53, so it is modelled with unbounded integers.
- `Decks.Deck`: `cards` is a sequence field that the methods reassign, not an array swapped in place. The deck grows and shrinks through `push` and `shift`.
- Engine.Game.ResolveSpace: the decks are stated by their cards, not by which deck object holds them.
- Engine.Game.ResolveLanding: its contract states only the phase and next action, not the effect of the space. `ResolveSpace` states the effect.
- Engine.Game.OpenOneHitSelector: for a card that is played, its contract states only the hand and the deck. `ResolveOneHit` states the card's effect.
- Engine.Game.DecisionMoment: for a One Hit Wonder, its contract states only the no-change cases. `OpenOneHitSelector` states the rest.
- Engine.Game.DecisionButton: its contract states only the refusal. `DecisionMoment` states the rest.
