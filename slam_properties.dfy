/** Properties of the Graph-SLAM constraint bookkeeping of slam.py, as written:
    what initialize_constraints leaves in omega and xi, which cells one loop step
    changes and by how much, when the loop stays inside the arrays, and what omega
    and xi hold after the whole loop. */
module GraphSlamProperties {
  import opened GraphSlam

  // ----- initialize_constraints -----

  /** The two omega anchors are both in column 0: the y anchor is off the diagonal and has
      no mirror in row 0. With N + L == 0 they fall on the same cell, which holds 1. */
  lemma InitOmegaAnchors(n: nat, numLandmarks: nat)
    ensures InitOmegaAt(n, numLandmarks, 0, 0) == 1.0
    ensures InitOmegaAt(n, numLandmarks, n + numLandmarks, 0) == 1.0
    ensures n + numLandmarks > 0 ==>
      InitOmegaAt(n, numLandmarks, 0, n + numLandmarks) == 0.0 &&
      InitOmegaAt(n, numLandmarks, n + numLandmarks, n + numLandmarks) == 0.0
  {
  }

  // ----- index range of the loop -----

  /** The module's own inputs (N = 20, L = 5) give a 52 x 52 omega and 19 steps. The 17 steps
      0 .. 16 stay in range; 18 steps do not, because step 17 reaches index 3*17 + 1 == 52. */
  lemma ModuleInputsOverrun()
    ensures Dim(20, 5) == 52 && Steps(20) == 19
    ensures !Fits(20, 5)
    ensures LoopFits(17, Dim(20, 5), Dim(20, 5), Dim(20, 5))
    ensures !LoopFits(18, Dim(20, 5), Dim(20, 5), Dim(20, 5))
    ensures 3 * 17 < Dim(20, 5) == 3 * 17 + 1
  {
  }

  // ----- one loop step -----

  /** At t == 0 current and next coincide: omega[0, 0] and omega[1, 1] each rise by
      1 + 1 - 1 + 1 == 2, and nothing else changes. */
  lemma StepAtZero(i: int, j: int)
    ensures StepDelta(0, i, j) == if (i == 0 && j == 0) || (i == 1 && j == 1) then 2.0 else 0.0
  {
  }

  /** At t == 1 the x next index 3 equals the y current index 3, so omega[3, 3] rises by 2. */
  lemma StepAtOne(i: int, j: int)
    ensures StepDelta(1, i, j) ==
      if (i, j) == (3, 3) then 2.0
      else if (i, j) == (3, 2) || (i, j) == (4, 3) then -1.0
      else if (i, j) == (2, 2) || (i, j) == (2, 3) || (i, j) == (3, 4) || (i, j) == (4, 4) then 1.0
      else 0.0
  {
  }

  /** From t == 2 on the eight cells of a step are distinct: six rise by 1, the two
      lower-left cells [3t, 2t] and [3t+1, 2t+1] fall by 1. */
  lemma StepFromTwo(t: nat)
    requires t >= 2
    ensures StepDelta(t, 2 * t, 2 * t) == 1.0 && StepDelta(t, 3 * t, 3 * t) == 1.0
    ensures StepDelta(t, 2 * t + 1, 2 * t + 1) == 1.0 && StepDelta(t, 3 * t + 1, 3 * t + 1) == 1.0
    ensures StepDelta(t, 2 * t, 3 * t) == 1.0 && StepDelta(t, 2 * t + 1, 3 * t + 1) == 1.0
    ensures StepDelta(t, 3 * t, 2 * t) == -1.0 && StepDelta(t, 3 * t + 1, 2 * t + 1) == -1.0
  {
  }

  /** For every t > 0 a step adds 2 more to [2t, 3t] than to its transpose (and likewise for y),
      so a symmetric omega does not stay symmetric. */
  lemma StepBreaksSymmetry(t: nat)
    requires t >= 1
    ensures StepDelta(t, 2 * t, 3 * t) - StepDelta(t, 3 * t, 2 * t) == 2.0
    ensures StepDelta(t, 2 * t + 1, 3 * t + 1) - StepDelta(t, 3 * t + 1, 2 * t + 1) == 2.0
  {
  }

  // ----- the whole loop -----

  /** A cell that no step among 0 .. k-1 touches keeps its value. */
  lemma {:induction false} LoopUntouched(k: nat, i: int, j: int)
    requires forall t :: 0 <= t < k ==> StepDelta(t, i, j) == 0.0
    ensures LoopDelta(k, i, j) == 0.0
  {
    if k > 0 {
      LoopUntouched(k - 1, i, j);
    }
  }

  /** A cell that only step s touches among 0 .. k-1 changes by what step s adds. */
  lemma {:induction false} LoopSingle(k: nat, s: nat, i: int, j: int)
    requires s < k
    requires forall t :: 0 <= t < k && t != s ==> StepDelta(t, i, j) == 0.0
    ensures LoopDelta(k, i, j) == StepDelta(s, i, j)
  {
    if k - 1 == s {
      LoopUntouched(s, i, j);
    } else {
      LoopSingle(k - 1, s, i, j);
    }
  }

  /** A cell that only steps s1 and s2 touch among 0 .. k-1 changes by what the two add. */
  lemma {:induction false} LoopPair(k: nat, s1: nat, s2: nat, i: int, j: int)
    requires s1 < s2 < k
    requires forall t :: 0 <= t < k && t != s1 && t != s2 ==> StepDelta(t, i, j) == 0.0
    ensures LoopDelta(k, i, j) == StepDelta(s1, i, j) + StepDelta(s2, i, j)
  {
    if k - 1 == s2 {
      LoopSingle(s2, s1, i, j);
    } else {
      LoopPair(k - 1, s1, s2, i, j);
    }
  }

  /** The distance between two indices. */
  function Gap(i: int, j: int): (g: nat)
  {
    if i < j then j - i else i - j
  }

  /** Off the diagonal only step |i - j| can touch [i, j], so after k steps the cell has
      changed by that step's amount if the step ran, and not at all otherwise. */
  lemma {:induction false} LoopOffDiagonal(k: nat, i: int, j: int)
    requires i != j
    ensures LoopDelta(k, i, j) == if Gap(i, j) < k then StepDelta(Gap(i, j), i, j) else 0.0
  {
    if Gap(i, j) < k {
      LoopSingle(k, Gap(i, j), i, j);
    } else {
      LoopUntouched(k, i, j);
    }
  }

  /** On the diagonal, index m is the current index of step m/2 (x when m is even, y when odd)
      and, unless m % 3 == 2, the next index of step m/3 (x when m % 3 == 0, y when m % 3 == 1).
      So omega[m, m] gains 1 for each of these steps that has run; at m == 0 and m == 1
      both are step 0. */
  lemma {:induction false} LoopDiagonal(k: nat, m: nat)
    ensures LoopDelta(k, m, m) ==
      (if m / 2 < k then 1.0 else 0.0) + (if m % 3 != 2 && m / 3 < k then 1.0 else 0.0)
  {
    if k > 0 {
      LoopDiagonal(k - 1, m);
      var t := k - 1;
      assert StepDelta(t, m, m) ==
        Hit(m, m, 2 * t, 2 * t) + Hit(m, m, 3 * t, 3 * t) + Hit(m, m, 2 * t + 1, 2 * t + 1) + Hit(m, m, 3 * t + 1, 3 * t + 1);
      assert (m / 2 == t) <==> (m == 2 * t || m == 2 * t + 1);
      assert (m % 3 != 2 && m / 3 == t) <==> (m == 3 * t || m == 3 * t + 1);
    }
  }

  /** Three instances of LoopDiagonal. Because the next index is 3t, x and y indices of
      different steps collide on the diagonal:
      omega[4, 4] gets the y next of step 1 and the x current of step 2, omega[6, 6] the x next
      of step 2 and the x current of step 3, omega[7, 7] the y next of step 2 and the y current
      of step 3. */
  lemma {:induction false} LoopCollisions(k: nat)
    ensures k >= 3 ==> LoopDelta(k, 4, 4) == 2.0
    ensures k >= 4 ==> LoopDelta(k, 6, 6) == 2.0 && LoopDelta(k, 7, 7) == 2.0
  {
    LoopDiagonal(k, 4);
    LoopDiagonal(k, 6);
    LoopDiagonal(k, 7);
  }

  /** Column 0 and row 0 outside [0, 0] are never touched, at any number of steps. */
  lemma {:induction false} ColumnZeroUntouched(k: nat, i: int)
    requires i != 0
    ensures LoopDelta(k, i, 0) == 0.0 && LoopDelta(k, 0, i) == 0.0
  {
    LoopUntouched(k, i, 0);
    LoopUntouched(k, 0, i);
  }

  /** After slam's loop (N >= 2), omega[0, 0] holds 1 + 2 and omega[1, 1] holds 2:
      only step 0 reaches these cells. */
  lemma FinalOrigin(n: nat, numLandmarks: nat)
    requires n >= 2
    ensures InitOmegaAt(n, numLandmarks, 0, 0) + LoopDelta(Steps(n), 0, 0) == 3.0
    ensures InitOmegaAt(n, numLandmarks, 1, 1) + LoopDelta(Steps(n), 1, 1) == 2.0
  {
    LoopSingle(Steps(n), 0, 0, 0);
    LoopSingle(Steps(n), 0, 1, 1);
  }

  /** After slam's loop the y anchor omega[N+L, 0] still holds 1 and its transpose 0,
      whatever N and L: the loop never writes column 0 or row 0 off the diagonal. */
  lemma FinalYAnchor(n: nat, numLandmarks: nat)
    requires n + numLandmarks > 0
    ensures InitOmegaAt(n, numLandmarks, n + numLandmarks, 0)
      + LoopDelta(Steps(n), n + numLandmarks, 0) == 1.0
    ensures InitOmegaAt(n, numLandmarks, 0, n + numLandmarks)
      + LoopDelta(Steps(n), 0, n + numLandmarks) == 0.0
  {
    ColumnZeroUntouched(Steps(n), n + numLandmarks);
  }

  /** After slam's loop with N >= 3, omega[2, 3] == 1 and omega[3, 2] == -1: the final
      omega is not symmetric. */
  lemma FinalAsymmetric(n: nat, numLandmarks: nat)
    requires n >= 3
    ensures InitOmegaAt(n, numLandmarks, 2, 3) + LoopDelta(Steps(n), 2, 3) == 1.0
    ensures InitOmegaAt(n, numLandmarks, 3, 2) + LoopDelta(Steps(n), 3, 2) == -1.0
  {
    LoopSingle(Steps(n), 1, 2, 3);
    LoopSingle(Steps(n), 1, 3, 2);
  }

  // ----- xi -----

  /** The motion component that the step writing xi[i] assigns there: step i/2 writes
      dx at even i and dy at odd i. */
  function Written(data: seq<TimeStep>, i: nat): (r: real)
    requires i / 2 < |data|
    ensures r == data[i / 2].motion.dx || r == data[i / 2].motion.dy
  {
    if i % 2 == 0 then data[i / 2].motion.dx else data[i / 2].motion.dy
  }

  /** Written names what step i/2 leaves in xi[i], whatever xi held there. */
  lemma WrittenByStep(xi: seq<real>, data: seq<TimeStep>, i: nat)
    requires i / 2 < |data| && 2 * (i / 2) + 1 < |xi|
    ensures StepXi(xi, i / 2, data[i / 2].motion)[i] == Written(data, i)
  {
  }

  /** After k steps, xi[i] for i < 2k holds the motion component written by step i/2
      (each cell is written by one step only, so no later step overwrites it), and
      every other cell keeps its starting value. */
  lemma {:induction false} XiAfterAt(xi: seq<real>, data: seq<TimeStep>, k: nat, i: nat)
    requires k <= |data| && 2 * k <= |xi| && i < |xi|
    ensures XiAfter(xi, data, k)[i] == if i < 2 * k then Written(data, i) else xi[i]
  {
    if k > 0 {
      XiAfterAt(xi, data, k - 1, i);
    }
  }

  /** xi is assigned, not accumulated: the cells the loop writes do not depend on what
      xi held before. */
  lemma {:induction false} XiForgetsStart(xi: seq<real>, xi': seq<real>, data: seq<TimeStep>, k: nat, i: nat)
    requires k <= |data| && 2 * k <= |xi| && |xi'| == |xi| && i < 2 * k
    ensures XiAfter(xi, data, k)[i] == XiAfter(xi', data, k)[i]
  {
    XiAfterAt(xi, data, k, i);
    XiAfterAt(xi', data, k, i);
  }

  /** After slam's loop (N >= 2) the x anchor world_size/2 in xi[0] is gone: step 0
      assigned the first motion's dx over it. */
  lemma FinalXAnchorOverwritten(n: nat, numLandmarks: nat, worldSize: real, data: seq<TimeStep>)
    requires n >= 2 && Steps(n) <= |data|
    ensures XiAfter(InitXi(n, numLandmarks, worldSize), data, Steps(n))[0] == data[0].motion.dx
  {
    XiAfterAt(InitXi(n, numLandmarks, worldSize), data, Steps(n), 0);
  }

  /** For any xi of the initialised shape: the loop leaves xi[N+L] alone exactly when it
      does not reach index N+L (N+L >= 2(N-1)); otherwise a motion component replaces it. */
  lemma YAnchorXiAfter(n: nat, numLandmarks: nat, xi: seq<real>, worldSize: real, data: seq<TimeStep>)
    requires Steps(n) <= |data| && |xi| == Dim(n, numLandmarks)
    requires xi[n + numLandmarks] == worldSize / 2.0
    ensures XiAfter(xi, data, Steps(n))[n + numLandmarks] ==
      if n + numLandmarks < 2 * Steps(n) then Written(data, n + numLandmarks) else worldSize / 2.0
  {
    var k, m := Steps(n), n + numLandmarks;
    assert 2 * k <= |xi| && m < |xi|;
    XiAfterAt(xi, data, k, m);
  }

  /** After slam's loop the y anchor xi[N+L] keeps world_size/2 exactly when N+L >= 2(N-1). */
  lemma FinalYAnchorXi(n: nat, numLandmarks: nat, worldSize: real, data: seq<TimeStep>)
    requires Steps(n) <= |data|
    ensures XiAfter(InitXi(n, numLandmarks, worldSize), data, Steps(n))[n + numLandmarks] ==
      if n + numLandmarks < 2 * Steps(n) then Written(data, n + numLandmarks) else worldSize / 2.0
  {
    var xi := InitXi(n, numLandmarks, worldSize);
    assert |xi| == Dim(n, numLandmarks) && xi[n + numLandmarks] == worldSize / 2.0;
    YAnchorXiAfter(n, numLandmarks, xi, worldSize, data);
  }
}
