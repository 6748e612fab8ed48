/** The path rule of a multi-step move: one step at a time, with the fork
    prompt on every clockwise s3 -> s4 crossing. This is the pure
    specification that the engine's step-by-step walk is proved against. */
module Path {
  import opened Wrappers
  import opened Track

  /** Where a walk ends and how many fork crossings (pass-bonus events) it made. */
  datatype Walked = Walked(dest: int, crossings: nat)

  /** `mode` is the pending fork answer (the source keeps it in a player
      field); `forks` are the answers still to be given, one per crossing. */
  function Walk(pos: int, steps: nat, dir: Dir, mode: Option<ForkChoice>, forks: seq<ForkChoice>): (w: Walked)
    requires IsSpace(pos) && |forks| >= steps
    ensures IsSpace(w.dest)
    ensures w.crossings <= steps
    decreases steps
  {
    if steps == 0 then Walked(pos, 0)
    else
      var next := if dir == CW then NextCW(pos) else PrevCCW(pos);
      if dir == CW && IsForkCrossCW(pos, next) then
        var rest := Walk(WinSpace, steps - 1, dir, Some(forks[0]), forks[1..]);
        Walked(rest.dest, rest.crossings + 1)
      else if dir == CW && pos == WinSpace && mode == Some(Up) then
        Walk(3, steps - 1, dir, None, forks)
      else if dir == CW && pos == WinSpace && mode == Some(Straight) then
        Walk(next, steps - 1, dir, None, forks)
      else
        Walk(next, steps - 1, dir, mode, forks)
  }

  /** A one-step walk (the +1 move) goes to the clockwise successor and
      crosses the fork only from s3; the fork answer is never used. */
  lemma OneStepWalk(pos: int, answer: ForkChoice)
    requires IsSpace(pos)
    ensures Walk(pos, 1, CW, None, [answer]) == Walked(NextCW(pos), if pos == 3 then 1 else 0)
  {
    WalkZero(WinSpace, CW, Some(answer), []);
    WalkZero(NextCW(pos), CW, None, [answer]);
  }

  /** The square, pending answer and crossing flag after one step. */
  datatype Stepped = Stepped(next: int, mode: Option<ForkChoice>, crossed: bool)

  /** One step of a walk from `pos`, with `fork` the answer given if this
      step crosses the fork: a clockwise s3 -> s4 crossing lands on s4 and
      records the answer; otherwise a pending answer is used up on s4 ("up"
      goes back to s3, "straight" on round the ring). */
  function StepFrom(pos: int, dir: Dir, mode: Option<ForkChoice>, fork: ForkChoice): (s: Stepped)
    requires IsSpace(pos)
    ensures IsSpace(s.next)
    ensures s.crossed <==> dir == CW && pos == 3
  {
    var next := if dir == CW then NextCW(pos) else PrevCCW(pos);
    if dir == CW && IsForkCrossCW(pos, next) then Stepped(WinSpace, Some(fork), true)
    else if dir == CW && pos == WinSpace && mode == Some(Up) then Stepped(3, None, false)
    else if dir == CW && pos == WinSpace && mode == Some(Straight) then Stepped(next, None, false)
    else Stepped(next, mode, false)
  }

  /** A clockwise step on the ring with no pending answer never crosses
      the fork and stays on the ring. */
  lemma RingStep(pos: int, fork: ForkChoice)
    requires OnRing(pos)
    ensures var s := StepFrom(pos, CW, None, fork);
            !s.crossed && s.mode.None? && OnRing(s.next)
  {
  }

  /** A walk is its first step followed by the walk from there: a crossing
      uses up one answer of `forks[k..]` and counts one pass. */
  lemma WalkAdvance(pos: int, n: nat, dir: Dir, mode: Option<ForkChoice>, forks: seq<ForkChoice>, k: nat)
    requires IsSpace(pos) && n >= 1 && k + n <= |forks|
    ensures var s := StepFrom(pos, dir, mode, forks[k]);
            var k2 := if s.crossed then k + 1 else k;
            var a := Walk(pos, n, dir, mode, forks[k..]);
            var b := Walk(s.next, n - 1, dir, s.mode, forks[k2..]);
            a.dest == b.dest && a.crossings == b.crossings + (k2 - k)
  {
    var fs := forks[k..];
    var s := StepFrom(pos, dir, mode, forks[k]);
    var w := Walk(pos, n, dir, mode, fs);
    if s.crossed {
      assert fs[0] == forks[k] && fs[1..] == forks[k + 1..];
      assert w == Walked(Walk(WinSpace, n - 1, dir, Some(fs[0]), fs[1..]).dest,
                         Walk(WinSpace, n - 1, dir, Some(fs[0]), fs[1..]).crossings + 1);
    } else {
      assert w == Walk(s.next, n - 1, dir, s.mode, fs);
    }
  }

  /** `n` more steps from `pos`, with the first `k` fork answers used up,
      finish the walk `whole`: same destination, and `k` plus the passes
      still to come make up all of its passes. */
  ghost predicate Resumes(pos: int, n: nat, dir: Dir, mode: Option<ForkChoice>, forks: seq<ForkChoice>, k: nat, whole: Walked)
  {
    IsSpace(pos) && k + n <= |forks| &&
    var w := Walk(pos, n, dir, mode, forks[k..]);
    w.dest == whole.dest && k + w.crossings == whole.crossings
  }

  /** Taking one step keeps a walk on course to finish `whole`. */
  lemma ResumeStep(pos: int, n: nat, dir: Dir, mode: Option<ForkChoice>, forks: seq<ForkChoice>, k: nat, whole: Walked)
    requires n >= 1 && Resumes(pos, n, dir, mode, forks, k, whole)
    ensures var s := StepFrom(pos, dir, mode, forks[k]);
            Resumes(s.next, n - 1, dir, s.mode, forks, if s.crossed then k + 1 else k, whole)
  {
    WalkAdvance(pos, n, dir, mode, forks, k);
  }

  /** A move of zero steps stays put and pays nothing. */
  lemma WalkZero(pos: int, dir: Dir, mode: Option<ForkChoice>, forks: seq<ForkChoice>)
    requires IsSpace(pos)
    ensures Walk(pos, 0, dir, mode, forks) == Walked(pos, 0)
  {
  }

  /** A clockwise crossing lands on s4, consumes one step and one fork answer,
      and counts one pass. */
  lemma CrossingLandsOnWinSpace(steps: nat, mode: Option<ForkChoice>, forks: seq<ForkChoice>)
    requires steps >= 1 && |forks| >= steps
    ensures var w := Walk(3, steps, CW, mode, forks);
            var rest := Walk(WinSpace, steps - 1, CW, Some(forks[0]), forks[1..]);
            w.dest == rest.dest && w.crossings == rest.crossings + 1
  {
  }

  /** After the answer "up" the next clockwise step goes back to s3 ... */
  lemma UpGoesBackToS3(steps: nat, forks: seq<ForkChoice>)
    requires steps >= 1 && |forks| >= steps
    ensures Walk(WinSpace, steps, CW, Some(Up), forks) == Walk(3, steps - 1, CW, None, forks)
  {
  }

  /** ... and after "straight" it continues round the ring to s5. */
  lemma StraightContinuesToS5(steps: nat, forks: seq<ForkChoice>)
    requires steps >= 1 && |forks| >= steps
    ensures Walk(WinSpace, steps, CW, Some(Straight), forks) == Walk(5, steps - 1, CW, None, forks)
  {
  }

  /** Counter-clockwise moves never cross the fork, so they never pay the pass bonus. */
  lemma {:induction false} CCWNeverCrosses(pos: int, steps: nat, mode: Option<ForkChoice>, forks: seq<ForkChoice>)
    requires IsSpace(pos) && |forks| >= steps
    ensures Walk(pos, steps, CCW, mode, forks).crossings == 0
    decreases steps
  {
    if steps > 0 {
      CCWNeverCrosses(PrevCCW(pos), steps - 1, mode, forks);
    }
  }

  /** Clockwise from a ring space (no answer pending) a walk is plain modular
      addition on the ring and pays nothing: the fork is only met from s3. */
  lemma {:induction false} RingWalkCW(pos: int, steps: nat, forks: seq<ForkChoice>)
    requires OnRing(pos) && |forks| >= steps
    ensures Walk(pos, steps, CW, None, forks) == Walked(WinSpace + (pos - WinSpace + steps) % RingSize, 0)
    decreases steps
  {
    if steps > 0 {
      RingWalkCW(NextCW(pos), steps - 1, forks);
      IterCWOnRing(pos, steps);
      IterCWOnRing(NextCW(pos), steps - 1);
    }
  }

  /** Counter-clockwise on the ring is modular subtraction (s4 steps back to s36). */
  lemma {:induction false} RingWalkCCW(pos: int, steps: nat, mode: Option<ForkChoice>, forks: seq<ForkChoice>)
    requires OnRing(pos) && |forks| >= steps
    ensures Walk(pos, steps, CCW, mode, forks) == Walked(WinSpace + (pos - WinSpace - steps) % RingSize, 0)
    decreases steps
  {
    if steps > 0 {
      RingWalkCCW(PrevCCW(pos), steps - 1, mode, forks);
      var a := pos - WinSpace;
      assert PrevCCW(pos) - WinSpace == (a - 1) % RingSize;
      assert ((a - 1) % RingSize - (steps - 1)) % RingSize == (a - steps) % RingSize;
    }
  }

  /** Counter-clockwise from s0..s3 a walk cycles s0 -> s3 -> s2 -> s1 -> s0
      and never reaches the ring. */
  lemma {:induction false} EntryWalkCCW(pos: int, steps: nat, mode: Option<ForkChoice>, forks: seq<ForkChoice>)
    requires 0 <= pos < WinSpace && |forks| >= steps
    ensures Walk(pos, steps, CCW, mode, forks) == Walked((pos - steps) % 4, 0)
    decreases steps
  {
    if steps > 0 {
      EntryWalkCCW(PrevCCW(pos), steps - 1, mode, forks);
      assert PrevCCW(pos) == (pos - 1) % 4;
      assert ((pos - 1) % 4 - (steps - 1)) % 4 == (pos - steps) % 4;
    }
  }

  /** A roll of 4 from the Living Room lands exactly on s4 after one crossing,
      whatever the fork answer. */
  lemma FromStartRollFour(answer: ForkChoice)
    ensures Walk(0, 4, CW, None, [answer, answer, answer, answer]) == Walked(WinSpace, 1)
  {
  }

  /** Answering "up" at every prompt keeps a player bouncing between s3 and
      s4, crossing (and being paid) on every second step. */
  lemma {:induction false} UpBounces(n: nat, forks: seq<ForkChoice>)
    requires |forks| >= 2 * n + 1
    requires forall i :: 0 <= i < |forks| ==> forks[i] == Up
    ensures Walk(3, 2 * n + 1, CW, None, forks) == Walked(WinSpace, n + 1)
    decreases n
  {
    if n > 0 {
      CrossingLandsOnWinSpace(2 * n + 1, None, forks);
      UpGoesBackToS3(2 * n, forks[1..]);
      UpBounces(n - 1, forks[1..]);
    }
  }
}
