/** `makeDeck`: a shuffled pile of cards with draw-from-the-front and
    put-back-and-reshuffle. */
module Decks {
  import opened Wrappers

  /** `s` with the elements at `i` and `j` exchanged. */
  function SwapAt<C>(s: seq<C>, i: nat, j: nat): (r: seq<C>)
    requires i < |s| && j < |s|
    ensures |r| == |s| && r[i] == s[j] && r[j] == s[i]
    ensures forall k :: 0 <= k < |s| && k != i && k != j ==> r[k] == s[k]
  {
    s[i := s[j]][j := s[i]]
  }

  /** Enough random draws to shuffle `n` cards (one per swap). */
  predicate EnoughDraws(n: nat, draws: seq<nat>) {
    |draws| >= n - 1
  }

  /** The Fisher-Yates passes for i = top, top-1, ..., 1: pass i swaps
      position i with position j, where j is the draw for that pass reduced
      into [0, i] (`Math.floor(Math.random() * (i + 1))`). */
  function ShuffleDown<C>(s: seq<C>, top: nat, draws: seq<nat>): (r: seq<C>)
    requires top < |s| && EnoughDraws(|s|, draws)
    ensures |r| == |s|
    decreases top
  {
    if top == 0 then s
    else ShuffleDown(SwapAt(s, top, draws[|s| - 1 - top] % (top + 1)), top - 1, draws)
  }

  /** The order `shuffle()` leaves the cards in, for the given random draws. */
  function Shuffled<C>(s: seq<C>, draws: seq<nat>): (r: seq<C>)
    requires EnoughDraws(|s|, draws)
    ensures |r| == |s|
  {
    if |s| == 0 then s else ShuffleDown(s, |s| - 1, draws)
  }

  lemma SwapPermutes<C>(s: seq<C>, i: nat, j: nat)
    requires i < |s| && j < |s|
    ensures multiset(SwapAt(s, i, j)) == multiset(s)
  {
    var t := s[i := s[j]];
    assert multiset(t) == multiset(s) - multiset{s[i]} + multiset{s[j]};
    assert t[j] == s[j] || i == j;
  }

  lemma {:induction false} ShuffleDownPermutes<C>(s: seq<C>, top: nat, draws: seq<nat>)
    requires top < |s| && EnoughDraws(|s|, draws)
    ensures multiset(ShuffleDown(s, top, draws)) == multiset(s)
    decreases top
  {
    if top > 0 {
      var j := draws[|s| - 1 - top] % (top + 1);
      SwapPermutes(s, top, j);
      ShuffleDownPermutes(SwapAt(s, top, j), top - 1, draws);
    }
  }

  /** Shuffling yields a permutation: same cards, same multiplicities. */
  lemma ShufflePermutes<C>(s: seq<C>, draws: seq<nat>)
    requires EnoughDraws(|s|, draws)
    ensures multiset(Shuffled(s, draws)) == multiset(s)
  {
    if |s| > 0 {
      ShuffleDownPermutes(s, |s| - 1, draws);
    }
  }

  /** Putting a card back and reshuffling adds exactly that card. */
  lemma PutBackAddsCard<C>(s: seq<C>, card: C, draws: seq<nat>)
    requires EnoughDraws(|s| + 1, draws)
    ensures multiset(Shuffled(s + [card], draws)) == multiset(s) + multiset{card}
  {
    ShufflePermutes(s + [card], draws);
  }

  /** Drawing the front card and putting it straight back (the Closet and
      Bedroom Shop discipline) leaves the deck's cards unchanged as a multiset. */
  lemma DrawThenPutBack<C>(s: seq<C>, draws: seq<nat>)
    requires |s| > 0 && EnoughDraws(|s|, draws)
    ensures multiset(Shuffled(s[1..] + [s[0]], draws)) == multiset(s)
  {
    PutBackAddsCard(s[1..], s[0], draws);
    assert s == [s[0]] + s[1..];
  }

  class Deck<C> {
    var cards: seq<C>

    /** `makeDeck(cards)`: a deck holding copies of `init`, in order. */
    constructor (init: seq<C>)
      ensures cards == init
    {
      cards := init;
    }

    /** In-place Fisher-Yates shuffle driven by the supplied draws. */
    method Shuffle(draws: seq<nat>)
      requires EnoughDraws(|cards|, draws)
      modifies this
      ensures cards == Shuffled(old(cards), draws)
      ensures multiset(cards) == multiset(old(cards))
    {
      ShufflePermutes(cards, draws);
      if |cards| == 0 {
        return;
      }
      var i := |cards| - 1;
      while i > 0
        invariant 0 <= i < |cards| == |old(cards)|
        invariant ShuffleDown(cards, i, draws) == Shuffled(old(cards), draws)
        decreases i
      {
        var j := draws[|cards| - 1 - i] % (i + 1);
        cards := cards[i := cards[j]][j := cards[i]];
        i := i - 1;
      }
    }

    /** The front card, removed; `None` (and no change) on an empty deck. */
    method Draw() returns (card: Option<C>)
      modifies this
      ensures old(cards) == [] ==> card == None && cards == []
      ensures old(cards) != [] ==> card == Some(old(cards)[0]) && cards == old(cards)[1..]
    {
      if |cards| == 0 {
        return None;
      }
      card := Some(cards[0]);
      cards := cards[1..];
    }

    /** Push the card onto the end, then reshuffle the whole deck. */
    method PutBackAndShuffle(card: C, draws: seq<nat>)
      requires EnoughDraws(|cards| + 1, draws)
      modifies this
      ensures cards == Shuffled(old(cards) + [card], draws)
      ensures multiset(cards) == multiset(old(cards)) + multiset{card}
    {
      cards := cards + [card];
      Shuffle(draws);
    }
  }
}
