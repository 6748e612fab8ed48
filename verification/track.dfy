/** The 37-space track: s0..s3 lead into the ring s4..s36, and s36 wraps
    round to s4. Moving clockwise from s3 into s4 is the fork. */
module Track {
  import opened Wrappers

  const SpaceCount: int := 37
  /** "First of the Month": the win space and the fork point. */
  const WinSpace: int := 4
  /** The ring s4..s36 has 33 spaces. */
  const RingSize: int := 33

  predicate IsSpace(pos: int) {
    0 <= pos < SpaceCount
  }

  predicate OnRing(pos: int) {
    WinSpace <= pos < SpaceCount
  }

  datatype Dir = CW | CCW

  /** The answer to the fork prompt when crossing s3 -> s4 clockwise. */
  datatype ForkChoice = Up | Straight

  function NextCW(pos: int): (r: int)
    requires IsSpace(pos)
    ensures IsSpace(r)
    ensures OnRing(pos) ==> OnRing(r)
  {
    if pos == 36 then 4
    else if pos == 4 then 5
    else (pos + 1) % SpaceCount
  }

  function PrevCCW(pos: int): (r: int)
    requires IsSpace(pos)
    ensures IsSpace(r)
    ensures OnRing(pos) <==> OnRing(r)
  {
    if pos == 4 then 36
    else if pos == 0 then 3
    else pos - 1
  }

  predicate IsForkCrossCW(from: int, to: int) {
    from == 3 && to == 4
  }

  /** The fixed junctions of the track. */
  lemma Junctions()
    ensures NextCW(36) == 4 && NextCW(4) == 5 && NextCW(3) == 4
    ensures PrevCCW(4) == 36 && PrevCCW(0) == 3
  {
  }

  /** A clockwise step is a fork crossing exactly when it starts on s3. */
  lemma ForkCrossOnlyFromS3(pos: int)
    requires IsSpace(pos)
    ensures IsForkCrossCW(pos, NextCW(pos)) <==> pos == 3
  {
  }

  /** The two directions undo each other everywhere except at the two
      junctions where the entry path meets the ring. */
  lemma StepsUndoEachOther(pos: int)
    requires IsSpace(pos)
    ensures pos != 3 ==> PrevCCW(NextCW(pos)) == pos
    ensures pos != 0 ==> NextCW(PrevCCW(pos)) == pos
    ensures PrevCCW(NextCW(3)) == 36 && NextCW(PrevCCW(0)) == 4
  {
  }

  /** `k` clockwise steps with `NextCW` alone (no fork prompt); from the ring
      they stay on the ring, so s0..s3 are never reached from there. */
  function IterCW(pos: int, k: nat): (r: int)
    requires IsSpace(pos)
    ensures IsSpace(r)
    ensures OnRing(pos) ==> OnRing(r)
    decreases k
  {
    if k == 0 then pos else IterCW(NextCW(pos), k - 1)
  }

  /** One more clockwise step extends an iterated walk at its end. */
  lemma {:induction false} IterCWStep(pos: int, k: nat)
    requires IsSpace(pos)
    ensures IterCW(pos, k + 1) == NextCW(IterCW(pos, k))
    decreases k
  {
    if k > 0 {
      IterCWStep(NextCW(pos), k - 1);
    }
  }

  /** On the ring, clockwise stepping is addition modulo the ring size. */
  lemma {:induction false} IterCWOnRing(pos: int, k: nat)
    requires OnRing(pos)
    ensures IterCW(pos, k) == WinSpace + (pos - WinSpace + k) % RingSize
    decreases k
  {
    if k > 0 {
      IterCWOnRing(NextCW(pos), k - 1);
      assert NextCW(pos) - WinSpace == (pos - WinSpace + 1) % RingSize;
      ModShift(pos - WinSpace, k);
    }
  }

  lemma ModShift(a: int, k: nat)
    requires 0 <= a < RingSize && k > 0
    ensures ((a + 1) % RingSize + (k - 1)) % RingSize == (a + k) % RingSize
  {
    if a + 1 == RingSize {
      assert (a + 1) % RingSize == 0;
      assert a + k == (k - 1) + RingSize;
      ModAddRing(k - 1);
    } else {
      assert (a + 1) % RingSize == a + 1;
    }
  }

  /** Adding one lap of the ring does not change the remainder. */
  lemma ModAddRing(x: nat)
    ensures (x + RingSize) % RingSize == x % RingSize
  {
    var q, r := x / RingSize, x % RingSize;
    assert x == q * RingSize + r && 0 <= r < RingSize;
    assert x + RingSize == (q + 1) * RingSize + r;
  }

  /** From the entry path s0..s3, clockwise stepping walks up to s4 and then
      round the ring. */
  lemma {:induction false} IterCWFromEntry(pos: int, k: nat)
    requires 0 <= pos < WinSpace
    ensures IterCW(pos, k) ==
      if pos + k < WinSpace then pos + k
      else WinSpace + (pos + k - WinSpace) % RingSize
    decreases k
  {
    if k > 0 {
      if pos + 1 < WinSpace {
        IterCWFromEntry(pos + 1, k - 1);
      } else {
        IterCWOnRing(WinSpace, k - 1);
      }
    }
  }

  /** Every ring space is reached clockwise from any space within
      `SpaceCount` steps. */
  lemma RingReachable(from: int, to: int)
    requires IsSpace(from) && OnRing(to)
    ensures exists k :: 1 <= k <= SpaceCount && IterCW(from, k) == to
  {
    if OnRing(from) {
      var k := if to > from then to - from else to - from + RingSize;
      IterCWOnRing(from, k);
      if to > from {
        assert from - WinSpace + k == to - WinSpace < RingSize;
      } else {
        assert from - WinSpace + k == (to - WinSpace) + RingSize;
        ModAddRing(to - WinSpace);
      }
      assert (from - WinSpace + k) % RingSize == to - WinSpace;
      assert IterCW(from, k) == to;
    } else {
      var k := to - from;
      IterCWFromEntry(from, k);
      assert (from + k - WinSpace) % RingSize == to - WinSpace;
      assert IterCW(from, k) == to;
    }
  }
}
