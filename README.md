# Graph-SLAM constraint bookkeeping of `slam.py`, as written

`slam.py` is an unfinished Graph-SLAM exercise. Graph SLAM builds an information
matrix `omega` and an information vector `xi` over all poses and landmarks, and
later solves `omega * mu = xi`. The completed code exists only as TODO comments.
What the code does today is this:

- `initialize_constraints(N, num_landmarks, world_size)` allocates a zero `omega`
  of side `xy_dim = 2 + 2*(N + num_landmarks)` and a zero `xi` of length `xy_dim`.
  It then seeds anchor cells for pose 0.
- the loop `for time_step in range(N - 1)` of `slam` adds fixed `+1`/`-1` amounts
  to `omega` at computed indices, and assigns the motion command to two `xi` cells.

The model keeps the code's behaviour, including where it departs from the algorithm
the comments describe. Each departure is marked in a comment where it occurs in the Dafny:

- The motion link of step `t` joins index `2t` to index `3t`, and `2t+1` to `3t+1`. It does not join `2t` to `2(t+1)`.
- The y anchor goes to `omega[N+L, 0]`, in column 0 rather than on the diagonal.
- `xi[2t]` and `xi[2t+1]` are assigned the motion, not incremented.
- Each link adds `+1` at `[cur, next]` and `-1` at `[next, cur]`, so the update is not symmetric. `omega` is already asymmetric after initialisation, because the y anchor in column 0 has no mirror.
- At `t == 0` current and next coincide. `omega[0,0]` and `omega[1,1]` each rise by 2.
- At `t == 1` the x "next" index 3 equals the y "current" index 3. So `omega[3,3]` rises
  by 2 in that step. From `t == 2` on, the eight cells of a step are distinct.
- Indices of different steps collide as well. Index `m` is the current index of step `m/2`
  (x when `m` is even, y when odd), and unless `m % 3 == 2` it is also the next index of step
  `m/3`. So over the whole loop `omega[4,4]` rises by 2 (step 1's y next, step 2's x current),
  and so do `omega[6,6]` and `omega[7,7]` (steps 2 and 3). Off the diagonal, `[i,j]` is
  touched only by step `|i - j|`.
- The loop stays in range only when `N <= 2*num_landmarks + 6`. The module's own
  inputs (`N = 20`, `num_landmarks = 5`, so `xy_dim = 52`) break this bound. Step 17
  finishes its x link and then needs column 52 at slam.py:79. The Dafny states the
  bound as a precondition and proves every access in range under it.

`slam` as written cannot start. Line 52 names `N_test`, `num_landmarks_test` and
`small_world`, which are undefined, and `omega`/`xi` are never bound in its scope.
The model therefore takes the loop as a method over caller-supplied `omega`, `xi`,
`N` and `data` (`UpdateConstraints`). `SlamConstraints` composes that method with
`InitializeConstraints(N, L, world_size)`.

Layout: `slam.dfy` (module `GraphSlam`) holds the data types, the specification
functions and the methods. `slam_properties.dfy` (module `GraphSlamProperties`)
holds the lemmas.

The specification functions each describe one effect of the code:

- `Range` gives the time steps `range(m)` yields, and `Steps` the loop's trip count.
- `InitOmegaAt` gives each cell after initialisation.
- `InitXi` gives `xi` after initialisation.
- `Hit`, `LinkDelta` and `StepDelta` give what the eight `+=` statements of one step add to a cell, summed so that coinciding cells add up.
- `LoopDelta` gives what the first `k` steps add to a cell.
- `StepXi` and `XiAfter` give `xi` after one step and after `k` steps.
- `LoopFits` and `Fits` give the index bound.

The methods are proved against these functions. The lemmas prove what the functions imply.

## Model

| member | source | states |
|---|---|---|
| GraphSlam.Dim | slam.py:28-36 | `xy_dim = 2 + 2(N+L)` exceeds `N+L`, so the y anchor index is in range |
| GraphSlam.Range | slam.py:56 | what `range(m)` yields: the time steps `0, 1, ..., m-1` in order, each at its own position, and nothing when `m <= 0` |
| GraphSlam.Steps | slam.py:56 | the loop's trip count is the number of time steps `range(N-1)` yields, so `N-1`, or 0 when `N <= 1` |
| GraphSlam.InitOmegaAt | slam.py:29-36 | each `omega` cell after initialisation is 0 or 1, and only cells in column 0 are nonzero |
| GraphSlam.LinkDelta | slam.py:65-81 | the four `+=` of one link change only cells with both indices in `{cur, next}`; when `cur == next` all four land on `[cur,cur]` (+2); on the diagonal the `+1` at `[cur,next]` and `-1` at `[next,cur]` cancel |
| GraphSlam.StepDelta | slam.py:65-81 | what step `t` adds to `omega[i,j]` is nonzero only if both `i, j` are in `{2t, 3t}` (x link) or both are in `{2t+1, 3t+1}` (y link) |
| GraphSlam.LoopDelta | slam.py:56-81 | what steps `0..k-1` add to `omega[i,j]` is 0 in rows and columns past `3(k-1)+1` |
| GraphSlam.StepXi | slam.py:83-84 | step `t` assigns `dx` to `xi[2t]` and `dy` to `xi[2t+1]`, keeps the length and leaves every other cell as it was |
| GraphSlam.LoopFits | slam.py:56-84 | the loop over `steps` steps stays in range if and only if every step `t < steps` does |
| GraphSlam.Fits | slam.py:28-84 | the loop's indices fit the arrays `initialize_constraints(N, L, _)` allocates if and only if `N <= 2L + 6` |
| GraphSlam.InitXi | slam.py:30-41 | `xi` has length `2 + 2(N+L)`; `xi[0]` and `xi[N+L]` hold `world_size/2`, every other entry is 0 |
| GraphSlam.XiAfter | slam.py:56-84 | `xi` after `k` loop steps has the same length as before |
| GraphSlam.InitializeConstraints | slam.py:23-43 | returns freshly allocated `omega` of shape `dim x dim` and `xi` of length `dim`, `dim = 2 + 2(N+L)`; `omega` is 1 at `[0,0]` and `[N+L,0]` and 0 elsewhere; `xi` is `InitXi` |
| GraphSlam.UpdateStep | slam.py:65-84 | one loop step at `t`, given only that indices `3t+1` and `2t+1` are in range: every `omega` cell rises by exactly `StepDelta(t, i, j)` (sequential in-place `+=` with coinciding indices equals the summed pattern); `xi` changes only at `2t` and `2t+1`, which are assigned `dx` and `dy` |
| GraphSlam.UpdateConstraints | slam.py:56-84 | the loop over `range(N-1)` on caller-supplied arrays, given that every index it uses is in range: each `omega` cell rises by `LoopDelta(N-1, i, j)`, `xi` becomes `XiAfter(old xi, data, N-1)` |
| GraphSlam.SlamConstraints | slam.py:50-84 | initialise with `(N, L, world_size)` then run the loop: freshly allocated arrays of shape `dim x dim`, `omega[i,j] == InitOmegaAt + LoopDelta`, `xi == XiAfter(InitXi, data, N-1)` |
| GraphSlamProperties.InitOmegaAnchors | slam.py:29-36 | `omega[0,0] == omega[N+L,0] == 1`; when `N+L > 0`, `omega[0,N+L] == 0` and `omega[N+L,N+L] == 0` (the y anchor is off the diagonal and not mirrored); when `N+L == 0` both writes hit `[0,0]`, which holds 1 |
| GraphSlamProperties.ModuleInputsOverrun | slam.py:8-9 | with `N = 20`, `L = 5`: `dim == 52`, 19 steps, 17 steps (0..16) fit, 18 steps (0..17) do not; step 17's x index `51` fits and its y index `52` does not (slam.py:76-79) |
| GraphSlamProperties.StepAtZero | slam.py:66-81 | at `t == 0` the step adds 2 to `omega[0,0]` and to `omega[1,1]` and nothing anywhere else |
| GraphSlamProperties.StepAtOne | slam.py:66-81 | at `t == 1` the step adds +2 at `[3,3]`, -1 at `[3,2]` and `[4,3]`, +1 at `[2,2]`, `[2,3]`, `[3,4]`, `[4,4]`, and 0 elsewhere |
| GraphSlamProperties.StepFromTwo | slam.py:69-81 | for `t >= 2`: the four diagonal cells and `[2t,3t]`, `[2t+1,3t+1]` rise by 1; `[3t,2t]`, `[3t+1,2t+1]` fall by 1 |
| GraphSlamProperties.StepBreaksSymmetry | slam.py:70-71 | for `t >= 1` a step adds 2 more to `[2t,3t]` than to `[3t,2t]`, and likewise for y |
| GraphSlamProperties.LoopPair | slam.py:56-81 | a cell touched by only two steps `s1 < s2` changes by exactly the sum of their amounts |
| GraphSlamProperties.LoopOffDiagonal | slam.py:56-81 | for `i != j`, after `k` steps `omega[i,j]` has changed by step `|i-j|`'s amount if that step ran, and not at all otherwise |
| GraphSlamProperties.LoopDiagonal | slam.py:56-81 | after `k` steps `omega[m,m]` has risen by 1 if step `m/2` ran, plus 1 if `m % 3 != 2` and step `m/3` ran |
| GraphSlamProperties.LoopCollisions | slam.py:56-81 | `omega[4,4]` rises by 2 once 3 steps have run, `omega[6,6]` and `omega[7,7]` by 2 once 4 steps have run |
| GraphSlamProperties.LoopUntouched | slam.py:56-81 | a cell no step touches keeps its value through the loop |
| GraphSlamProperties.LoopSingle | slam.py:56-81 | a cell touched by a single step changes by exactly that step's amount |
| GraphSlamProperties.ColumnZeroUntouched | slam.py:56-81 | column 0 and row 0 away from `[0,0]` are never changed by the loop |
| GraphSlamProperties.FinalOrigin | slam.py:35-81 | after the loop with `N >= 2`: `omega[0,0] == 3`, `omega[1,1] == 2` |
| GraphSlamProperties.FinalYAnchor | slam.py:36-81 | when `N+L > 0`, after the loop, `omega[N+L,0]` is still 1 and `omega[0,N+L]` still 0 |
| GraphSlamProperties.FinalAsymmetric | slam.py:29-81 | after the loop with `N >= 3`: `omega[2,3] == 1` and `omega[3,2] == -1`, so the result is not symmetric |
| GraphSlamProperties.Written | slam.py:83-84 | the value step `i/2` writes to `xi[i]` is a component of that step's motion |
| GraphSlamProperties.WrittenByStep | slam.py:83-84 | step `i/2` leaves `Written(data, i)` in `xi[i]`, whatever `xi` held: `dx` at even `i`, `dy` at odd `i` |
| GraphSlamProperties.XiAfterAt | slam.py:83-84 | after `k` steps, `xi[i]` for `i < 2k` holds `dx` (even `i`) or `dy` (odd `i`) of step `i/2`; every earlier step's cells survive later steps; other cells keep their start value |
| GraphSlamProperties.XiForgetsStart | slam.py:83-84 | the written cells do not depend on the starting `xi` (assignment, not accumulation) |
| GraphSlamProperties.FinalXAnchorOverwritten | slam.py:40-83 | after the loop with `N >= 2`, `xi[0]` is the first motion's `dx`; the x anchor `world_size/2` is lost |
| GraphSlamProperties.YAnchorXiAfter | slam.py:41-84 | for any start `xi` with `world_size/2` at `N+L`, after the loop `xi[N+L]` keeps it exactly when `N+L >= 2(N-1)`, and otherwise holds the motion component written there |
| GraphSlamProperties.FinalYAnchorXi | slam.py:41-84 | the same for the `xi` that initialisation produces |

## Left out

- The module-level `make_data` call and the `helpers` import (slam.py:2, 20) are not modelled. `helpers` is not part of this model, and the call is random simulation. The data sequence is a parameter instead.
- The `print` calls (slam.py:57-59) are left out because they are I/O only. The measurements of each step appear in the `TimeStep` type but the loop only prints them.
- Measurement constraints and noise weighting are not modelled, because the code has only TODO comments for them (slam.py:61-63, 86). `motion_noise` and `measurement_noise` are never read, so `SlamConstraints` does not take them.
- Computing `mu` is not modelled. The code sets `mu = None` (slam.py:91), and a linear solve would be numerical linear algebra.
- SlamConstraints: the undefined names at slam.py:52 and the unbound `omega`/`xi` would raise `NameError`. The model reads that line as `initialize_constraints(N, num_landmarks, world_size)` applied to the arrays the loop uses. It returns `(omega, xi)` where the code would return `None`.
- UpdateConstraints: when an index leaves the arrays, the code raises `IndexError` part-way through a step, after some cells have changed. The model requires the bound instead, so that partial update is not captured. The same bound on `SlamConstraints`, `requires Fits(n, numLandmarks)`, excludes it there too. `ModuleInputsOverrun` shows where it happens for the module's own inputs.
- `N` and `num_landmarks` are `nat`, so negative inputs are not modelled. In the code, a negative `N` with `N + L >= 0` initialises and then runs an empty loop without error. With `N + L == -1`, `xy_dim` is 0 and slam.py:35 raises `IndexError`. With `N + L <= -2`, `np.zeros` at slam.py:29 raises `ValueError`. No negative index is ever reached.
- UpdateConstraints: `requires Steps(n) <= |data|` excludes `data` shorter than `N - 1`. In the code, slam.py:58 then raises `IndexError` at the first missing step, before that step changes anything, and the earlier steps' updates remain. The same requires on `SlamConstraints` excludes that case too.
- Entries are `real`, not IEEE doubles. Only `+1`, `-1`, `world_size/2` and copied motion values occur, so no rounding is involved except in `world_size / 2`, which is modelled as exact.
- `xi` has shape `(xy_dim, 1)` in the code. It is a one-dimensional array here.
