/** A participant's game state, and the value-level rules of the economy. */
module Players {
  import opened Track
  import opened Cards

  const StartCash: int := 100
  const WinCash: int := 200

  /** A player record; identity is the player's index in the game's list
      (the source's `id`), and name, colour and token coordinates are
      presentation only. */
  datatype Player = Player(
    pos: int,
    cash: int,
    loseTurn: bool,
    extraTurnQueued: nat,
    bedroom: seq<BedroomCard>,
    oneHit: seq<OneHitCard>,
    usedPlus1ThisTurn: bool)

  function NewPlayer(): (p: Player)
    ensures p.pos == 0 && p.cash == StartCash && p.bedroom == [] && p.oneHit == []
    ensures !p.loseTurn && p.extraTurnQueued == 0 && !p.usedPlus1ThisTurn
  {
    Player(0, StartCash, false, 0, [], [], false)
  }

  /** Position on the track and no debt. */
  predicate Sound(p: Player) {
    IsSpace(p.pos) && p.cash >= 0
  }

  /** `hasBedroom(p, key)`: some card of the Bedroom hand has that key. */
  predicate HasBedroom(p: Player, key: BedroomCard) {
    key in p.bedroom
  }

  /** What `bankCollect(p, amount)` credits: doubled under "2X MONEY". */
  function Credit(p: Player, amount: nat): nat {
    if HasBedroom(p, DoubleBank) then 2 * amount else amount
  }

  /** What a payment of `amount` actually takes from `cash`: never more than
      the payer has, so there is no debt. */
  function Debit(cash: int, amount: nat): int {
    if cash < amount then cash else amount
  }

  /** The pass bonus one crossing of s3 -> s4 pays this player. */
  function PassBonus(p: Player): nat {
    if HasBedroom(p, PassS4Plus10) then Credit(p, 10) else 0
  }

  /** The player after `n` pass bonuses. */
  function WithPasses(p: Player, n: nat): Player {
    p.(cash := p.cash + n * PassBonus(p))
  }

  /** Pass bonuses add up: the bonus does not depend on cash, so paying
      `m` and then `n` more is paying `m + n`. */
  lemma PassesAdd(p: Player, m: nat, n: nat)
    ensures WithPasses(WithPasses(p, m), n) == WithPasses(p, m + n)
  {
    assert PassBonus(WithPasses(p, m)) == PassBonus(p);
    assert (m + n) * PassBonus(p) == m * PassBonus(p) + n * PassBonus(p);
  }

  /** Whether the +1 move may be offered: the card is held and unused this turn. */
  predicate Plus1Offered(p: Player) {
    HasBedroom(p, MayPlus1) && !p.usedPlus1ThisTurn
  }

  /** A winning position: on First of the Month with at least $200. */
  predicate Wins(p: Player) {
    p.pos == WinSpace && p.cash >= WinCash
  }

  /** `bankCollect(p, amount)`'s effect on the player. */
  function Collected(p: Player, amount: nat): (q: Player)
    ensures q == p.(cash := q.cash) && q.cash >= p.cash + amount
    ensures !HasBedroom(p, DoubleBank) ==> q.cash == p.cash + amount
    ensures amount > 0 ==> (HasBedroom(p, DoubleBank) <==> q.cash == p.cash + 2 * amount)
  {
    p.(cash := p.cash + Credit(p, amount))
  }

  /** `bankPay(p, amount)`'s effect on the player. */
  function Paid(p: Player, amount: nat): (q: Player)
    requires p.cash >= 0
    ensures q == p.(cash := q.cash) && q.cash >= 0
    ensures q.cash == if p.cash < amount then 0 else p.cash - amount
  {
    p.(cash := p.cash - Debit(p.cash, amount))
  }

  /** A payment from a sound player leaves it sound and takes
      `min(cash, amount)`. */
  lemma DebitIsClamped(cash: int, amount: nat)
    requires cash >= 0
    ensures 0 <= Debit(cash, amount) <= amount && Debit(cash, amount) <= cash
    ensures cash - Debit(cash, amount) == if cash < amount then 0 else cash - amount
  {
  }

  function TotalCash(ps: seq<Player>): int {
    if ps == [] then 0 else ps[0].cash + TotalCash(ps[1..])
  }

  lemma {:induction false} TotalCashUpdate(ps: seq<Player>, i: nat, q: Player)
    requires i < |ps|
    ensures TotalCash(ps[i := q]) == TotalCash(ps) - ps[i].cash + q.cash
    decreases |ps|
  {
    if i > 0 {
      TotalCashUpdate(ps[1..], i - 1, q);
      assert ps[i := q][1..] == ps[1..][i - 1 := q];
    }
  }

  /** `payPlayer`'s bookkeeping: `amount` leaves `from` and reaches `to`;
      nobody else is touched and the total cash over all players is kept. */
  function Transfer(ps: seq<Player>, from: nat, to: nat, amount: int): (r: seq<Player>)
    requires from < |ps| && to < |ps|
    ensures |r| == |ps| && TotalCash(r) == TotalCash(ps)
    ensures from != to ==> r[from].cash == ps[from].cash - amount && r[to].cash == ps[to].cash + amount
    ensures forall k :: 0 <= k < |ps| ==> r[k] == ps[k].(cash := r[k].cash)
    ensures forall k :: 0 <= k < |ps| && k != from && k != to ==> r[k] == ps[k]
  {
    var ps1 := ps[from := ps[from].(cash := ps[from].cash - amount)];
    TotalCashUpdate(ps, from, ps1[from]);
    TotalCashUpdate(ps1, to, ps1[to].(cash := ps1[to].cash + amount));
    ps1[to := ps1[to].(cash := ps1[to].cash + amount)]
  }

  /** The number of players whose next turn will be skipped. */
  function LoseCount(ps: seq<Player>): nat {
    if ps == [] then 0 else (if ps[0].loseTurn then 1 else 0) + LoseCount(ps[1..])
  }

  lemma {:induction false} LoseCountUpdate(ps: seq<Player>, i: nat, q: Player)
    requires i < |ps|
    ensures LoseCount(ps[i := q]) ==
      LoseCount(ps) - (if ps[i].loseTurn then 1 else 0) + (if q.loseTurn then 1 else 0)
    decreases |ps|
  {
    if i > 0 {
      LoseCountUpdate(ps[1..], i - 1, q);
      assert ps[i := q][1..] == ps[1..][i - 1 := q];
    }
  }

  /** `s` without the element at `k`: a one-element `splice`. */
  function RemoveAt<T>(s: seq<T>, k: nat): (r: seq<T>)
    requires k < |s|
    ensures |r| == |s| - 1
    ensures forall i :: 0 <= i < |r| ==> r[i] == if i < k then s[i] else s[i + 1]
    ensures multiset(r) + multiset{s[k]} == multiset(s)
  {
    assert s == s[..k] + [s[k]] + s[k + 1..];
    s[..k] + s[k + 1..]
  }

  /** The order in which repeated `pop()`s hand out the elements of `s`. */
  function Reversed<T>(s: seq<T>): (r: seq<T>)
    ensures |r| == |s|
  {
    if s == [] then [] else Reversed(s[1..]) + [s[0]]
  }

  /** Popped elements, in order: the last first. */
  lemma {:induction false} ReversedIndex<T>(s: seq<T>)
    ensures forall i :: 0 <= i < |s| ==> Reversed(s)[i] == s[|s| - 1 - i]
  {
    if s != [] {
      ReversedIndex(s[1..]);
    }
  }

  /** Popping everything loses and invents nothing. */
  lemma {:induction false} ReversedPermutes<T>(s: seq<T>)
    ensures multiset(Reversed(s)) == multiset(s)
  {
    if s != [] {
      ReversedPermutes(s[1..]);
      assert s == [s[0]] + s[1..];
    }
  }

  /** Popping one more element from the end extends the popped order. */
  lemma ReversedPop<T>(s: seq<T>, k: nat)
    requires 0 < k <= |s|
    ensures Reversed(s[k - 1..]) == Reversed(s[k..]) + [s[k - 1]]
  {
    assert s[k - 1..][1..] == s[k..];
  }
}
