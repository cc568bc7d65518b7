/** Graph-SLAM constraint bookkeeping of slam.py, modelled as the code is written.

    The code is an unfinished exercise, and several statements differ from the
    Graph-SLAM algorithm its comments announce. The model keeps each of them
    and says so where it occurs:
    - the motion link of step t joins index 2t to index 3t (not 2(t+1));
    - the y anchor of pose 0 is written to omega[N+L, 0], in column 0, not on the diagonal;
    - the motion command is assigned to xi[2t] and xi[2t+1], not added;
    - the four omega updates of a link are not symmetric (+1 at [cur, next], -1 at [next, cur]);
    - no measurement constraint and no noise weight is ever applied. */
module GraphSlam {

  /** One landmark observation (landmark id, x offset, y offset). The loop only prints these. */
  datatype Measurement = Measurement(landmark: int, dx: real, dy: real)

  /** A motion command (dx, dy): the pair data[t][1] of the source. */
  datatype Motion = Motion(dx: real, dy: real)

  /** One element data[t] of the data sequence: (measurements, motion). */
  datatype TimeStep = TimeStep(measurements: seq<Measurement>, motion: Motion)

  /** xy_dim: the side of omega and the length of xi. The code uses 2 + 2*(N + L). */
  function Dim(n: nat, numLandmarks: nat): (d: nat)
    ensures n + numLandmarks < d  // the y anchor index N+L is in range
  {
    2 + 2 * (n + numLandmarks)
  }

  /** The time steps Python's range(m) yields, in order: 0, 1, ..., m - 1, and none when m <= 0. */
  function Range(m: int): (r: seq<int>)
    ensures m <= 0 ==> r == []
    ensures m > 0 ==> |r| == m
    ensures forall p :: 0 <= p < |r| ==> r[p] == p
  {
    if m <= 0 then [] else Range(m - 1) + [m - 1]
  }

  /** Number of iterations of `for time_step in range(N - 1)`. */
  function Steps(n: nat): (k: nat)
    ensures k == |Range(n - 1)|
  {
    if n == 0 then 0 else n - 1
  }

  /** The value of omega[i, j] right after initialize_constraints: zero everywhere except
      the two cells set to 1, both in column 0. When N + L == 0 the two coincide at [0, 0],
      which is set twice and so holds 1, not 2. */
  function InitOmegaAt(n: nat, numLandmarks: nat, i: int, j: int): (r: real)
    ensures r == 0.0 || r == 1.0
    ensures r != 0.0 ==> j == 0
  {
    if j == 0 && (i == 0 || i == n + numLandmarks) then 1.0 else 0.0
  }

  /** xi right after initialize_constraints: zeros, then world_size/2 assigned at 0 and at N + L. */
  function InitXi(n: nat, numLandmarks: nat, worldSize: real): (xi: seq<real>)
    ensures |xi| == Dim(n, numLandmarks)
    ensures forall i :: 0 <= i < |xi| ==>
      xi[i] == if i == 0 || i == n + numLandmarks then worldSize / 2.0 else 0.0
  {
    seq(Dim(n, numLandmarks), _ => 0.0)[0 := worldSize / 2.0][n + numLandmarks := worldSize / 2.0]
  }

  /** 1 when (i, j) is the cell (row, col), else 0. */
  function Hit(i: int, j: int, row: int, col: int): (r: real)
  {
    if i == row && j == col then 1.0 else 0.0
  }

  /** The total that the four `+=` statements of one motion link add to omega[i, j]:
      +1 at [cur, cur], +1 at [cur, next], -1 at [next, cur], +1 at [next, next].
      Written as a sum, so coinciding cells add up. */
  function LinkDelta(cur: int, next: int, i: int, j: int): (r: real)
    ensures r != 0.0 ==> (i == cur || i == next) && (j == cur || j == next)
    ensures cur == next ==> r == 2.0 * Hit(i, j, cur, cur)
    // on the diagonal the +1 at [cur, next] and the -1 at [next, cur] cancel
    ensures i == j ==> r == Hit(i, i, cur, cur) + Hit(i, i, next, next)
  {
    Hit(i, j, cur, cur) + Hit(i, j, cur, next) - Hit(i, j, next, cur) + Hit(i, j, next, next)
  }

  /** What loop step t adds to omega[i, j]: the x link (2t, 3t) and the y link (2t+1, 3t+1). */
  function StepDelta(t: nat, i: int, j: int): (r: real)
    ensures r != 0.0 ==>
      ((i == 2 * t || i == 3 * t) && (j == 2 * t || j == 3 * t)) ||
      ((i == 2 * t + 1 || i == 3 * t + 1) && (j == 2 * t + 1 || j == 3 * t + 1))
  {
    LinkDelta(2 * t, 3 * t, i, j) + LinkDelta(2 * t + 1, 3 * t + 1, i, j)
  }

  /** What steps 0 .. k-1 together add to omega[i, j]. */
  function LoopDelta(k: nat, i: int, j: int): (r: real)
    // rows and columns beyond the largest index 3(k-1)+1 are never touched
    ensures 3 * k <= i + 1 || 3 * k <= j + 1 ==> r == 0.0
  {
    if k == 0 then 0.0 else LoopDelta(k - 1, i, j) + StepDelta(k - 1, i, j)
  }

  /** xi after step t: the motion is assigned (not added) to xi[2t] and xi[2t+1]. */
  function StepXi(xi: seq<real>, t: nat, motion: Motion): (r: seq<real>)
    requires 2 * t + 1 < |xi|
    ensures |r| == |xi| && r[2 * t] == motion.dx && r[2 * t + 1] == motion.dy
    ensures forall m :: 0 <= m < |xi| && m != 2 * t && m != 2 * t + 1 ==> r[m] == xi[m]
  {
    xi[2 * t := motion.dx][2 * t + 1 := motion.dy]
  }

  /** xi after steps 0 .. k-1, run in order on the motions of data. */
  function XiAfter(xi: seq<real>, data: seq<TimeStep>, k: nat): (r: seq<real>)
    requires k <= |data| && 2 * k <= |xi|
    ensures |r| == |xi|
  {
    if k == 0 then xi else StepXi(XiAfter(xi, data, k - 1), k - 1, data[k - 1].motion)
  }

  /** Every index step t uses lies inside an omega of rows x cols and an xi of length len:
      the largest omega index is 3t+1, the largest xi index 2t+1. */
  predicate StepFits(t: nat, rows: int, cols: int, len: int)
  {
    3 * t + 1 < rows && 3 * t + 1 < cols && 2 * t + 1 < len
  }

  /** Every step among 0 .. steps-1 fits; it is enough that the last one does. */
  predicate LoopFits(steps: nat, rows: int, cols: int, len: int)
    ensures LoopFits(steps, rows, cols, len) <==>
      forall t :: 0 <= t < steps ==> StepFits(t, rows, cols, len)
  {
    steps == 0 || StepFits(steps - 1, rows, cols, len)
  }

  /** The loop of slam stays in range of the arrays initialize_constraints(N, L, _) allocates,
      which happens exactly when N <= 2L + 6. */
  predicate Fits(n: nat, numLandmarks: nat)
    ensures Fits(n, numLandmarks) <==> n <= 2 * numLandmarks + 6
  {
    LoopFits(Steps(n), Dim(n, numLandmarks), Dim(n, numLandmarks), Dim(n, numLandmarks))
  }

  /** initialize_constraints: allocate a zero omega (xy_dim x xy_dim) and a zero xi (xy_dim),
      then seed the anchor cells. xi is a column vector of shape (xy_dim, 1) in the code;
      here it is a one-dimensional array. */
  method InitializeConstraints(n: nat, numLandmarks: nat, worldSize: real)
    returns (omega: array2<real>, xi: array<real>)
    ensures fresh(omega) && fresh(xi)
    ensures omega.Length0 == Dim(n, numLandmarks) && omega.Length1 == Dim(n, numLandmarks)
    ensures xi.Length == Dim(n, numLandmarks)
    ensures forall i, j :: 0 <= i < omega.Length0 && 0 <= j < omega.Length1 ==>
      omega[i, j] == InitOmegaAt(n, numLandmarks, i, j)
    ensures xi[..] == InitXi(n, numLandmarks, worldSize)
  {
    var xyDim := 2 + 2 * (n + numLandmarks);
    omega := new real[xyDim, xyDim]((_, _) => 0.0);
    xi := new real[xyDim](_ => 0.0);

    omega[0, 0] := 1.0;
    // As written, the y anchor goes to row N+L of column 0, not to the diagonal.
    omega[n + numLandmarks, 0] := 1.0;

    xi[0] := worldSize / 2.0;
    xi[n + numLandmarks] := worldSize / 2.0;
  }

  /** One iteration of the loop of slam, at time step t, on caller-supplied omega and xi.
      When t == 0 the current and next indices coincide, so the four x updates land on
      omega[0, 0] and the four y updates on omega[1, 1]. */
  method UpdateStep(omega: array2<real>, xi: array<real>, t: nat, motion: Motion)
    requires StepFits(t, omega.Length0, omega.Length1, xi.Length)
    modifies omega, xi
    ensures forall i, j :: 0 <= i < omega.Length0 && 0 <= j < omega.Length1 ==>
      omega[i, j] == old(omega[i, j]) + StepDelta(t, i, j)
    ensures xi[..] == StepXi(old(xi[..]), t, motion)
  {
    // x link: as written the next pose index is 3t, not 2(t+1).
    var pxT := 2 * t;
    var pxT1 := 3 * t;
    omega[pxT, pxT] := omega[pxT, pxT] + 1.0;
    omega[pxT, pxT1] := omega[pxT, pxT1] + 1.0;
    // not mirrored: the transposed cell falls while [pxT, pxT1] rises
    omega[pxT1, pxT] := omega[pxT1, pxT] - 1.0;
    omega[pxT1, pxT1] := omega[pxT1, pxT1] + 1.0;

    // y link: 2t+1 to 3t+1.
    var pyT := 2 * t + 1;
    var pyT1 := 3 * t + 1;
    omega[pyT, pyT] := omega[pyT, pyT] + 1.0;
    omega[pyT, pyT1] := omega[pyT, pyT1] + 1.0;
    omega[pyT1, pyT] := omega[pyT1, pyT] - 1.0;
    omega[pyT1, pyT1] := omega[pyT1, pyT1] + 1.0;

    // assigned, not accumulated
    xi[2 * t] := motion.dx;
    xi[2 * t + 1] := motion.dy;
  }

  /** The loop `for time_step in range(N - 1)` of slam over caller-supplied omega and xi.
      It raises IndexError in the code when an index leaves the arrays; here that is excluded. */
  method UpdateConstraints(omega: array2<real>, xi: array<real>, n: nat, data: seq<TimeStep>)
    requires Steps(n) <= |data|
    requires LoopFits(Steps(n), omega.Length0, omega.Length1, xi.Length)
    modifies omega, xi
    ensures forall i, j :: 0 <= i < omega.Length0 && 0 <= j < omega.Length1 ==>
      omega[i, j] == old(omega[i, j]) + LoopDelta(Steps(n), i, j)
    ensures xi[..] == XiAfter(old(xi[..]), data, Steps(n))
  {
    for t := 0 to Steps(n)
      invariant forall i, j :: 0 <= i < omega.Length0 && 0 <= j < omega.Length1 ==>
        omega[i, j] == old(omega[i, j]) + LoopDelta(t, i, j)
      invariant xi[..] == XiAfter(old(xi[..]), data, t)
    {
      UpdateStep(omega, xi, t, data[t].motion);
    }
  }

  /** slam with its first statement read as initialize_constraints(N, L, world_size) and
      the loop applied to the omega and xi that call returns. The code's own result mu is
      None, so this returns the constraint state the loop leaves. */
  method SlamConstraints(data: seq<TimeStep>, n: nat, numLandmarks: nat, worldSize: real)
    returns (omega: array2<real>, xi: array<real>)
    requires Steps(n) <= |data|
    requires Fits(n, numLandmarks)
    ensures fresh(omega) && fresh(xi)
    ensures omega.Length0 == Dim(n, numLandmarks) && omega.Length1 == Dim(n, numLandmarks)
    ensures forall i, j :: 0 <= i < omega.Length0 && 0 <= j < omega.Length1 ==>
      omega[i, j] == InitOmegaAt(n, numLandmarks, i, j) + LoopDelta(Steps(n), i, j)
    ensures xi[..] == XiAfter(InitXi(n, numLandmarks, worldSize), data, Steps(n))
  {
    omega, xi := InitializeConstraints(n, numLandmarks, worldSize);
    UpdateConstraints(omega, xi, n, data);
  }
}
