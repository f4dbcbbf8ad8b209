# OpenGL-GR-Grav-Sim: a Dafny model of the physics core

OpenGL-GR-Grav-Sim simulates two gravitating bodies under post-Newtonian
(PN) corrections to Newtonian gravity and renders them with OpenGL. This
project models the part of it that computes and exchanges the physics state:

- **Force model** (`Formulae`, from `src/formulae.cpp`). This is the relative
  acceleration of body 1 with respect to body 2 up to 2.5PN order, in
  astronomical units, years and solar masses. The model also splits that
  acceleration into the two bodies' accelerations by mass ratio.
- **Integrator** (`Integration`, from `src/integration.cpp` and
  `include/integration.h`). This covers:
  - the adaptive Dormand–Prince RK5(4)7M substep and its RMS error norm;
  - the step-size controller that substeps across one physics step;
  - the `RK45_integration` object, which carries the step size from one
    call to the next.
- **Bodies** (`Bodies`, from `include/celestial_body_class.h`). A body is a
  position, a velocity, a mass and a drawn radius derived from the mass.
- **State exchange** (`Simulation`, from `src/main.cpp`). This covers:
  - `buffer_box`, the back buffer the physics thread integrates, and the two
    bodies the renderer draws;
  - the UI's `render_object` and its equality;
  - the guard that rejects a non-positive mass typed into the UI;
  - the fixed-timestep accumulator loop of the physics thread.

The model works over `real`. The C math routines (`std::sqrt`/`glm::length`,
`std::pow`, `std::cbrt`) are function values bundled in `MathLib.Libm`. Its
`Valid()` predicate states the only facts the proofs use:
- `sqrt` is non-negative on non-negatives and squares back;
- `sqrt(0) == 0`;
- `cbrt` is positive on positives.

The integrator is generic in its derivative function. `Integration.Derivatives`
is the concrete one, built from the force model; over the reals it is
undefined when the separation or the total mass is zero. The number of
controller iterations is bounded by a `fuel` argument, because the source
loop need not terminate (see Left out).

Shared vector and matrix algebra (`glm::dvec3`, `glm::dmat4x3`) lives in
`Vectors`. Sign and floor facts about real arithmetic live in `MathLib`.

## Model

| member | source | states |
|---|---|---|
| Formulae.SymmetricMassRatio | OpenGL-GR-Grav-Sim/src/formulae.cpp:28 | `eta (m1 + m2)^2 == m1 m2`: the result is the symmetric mass ratio |
| Formulae.SymmetricMassRatioBounds | OpenGL-GR-Grav-Sim/src/formulae.cpp:26-28 | for non-negative masses with a positive sum, `0 <= eta <= 1/4`; `eta == 0` iff one mass is zero; `eta == 1/4` iff the masses are equal |
| Formulae.RelativeTerms | OpenGL-GR-Grav-Sim/src/formulae.cpp:26-40 | the separation is `pos1 - pos2`, the relative velocity is `v1 - v2`, and `r * (mu/r) == mu` |
| Formulae.UnitDirection | OpenGL-GR-Grav-Sim/src/formulae.cpp:30-40 | `r n_hat == sep`; `n_hat` has unit length; `r_dot r == v . sep`, so `r_dot` is the radial velocity |
| Formulae.Normalised | OpenGL-GR-Grav-Sim/src/formulae.cpp:34-37 | dividing a vector by its non-zero length gives a unit vector that scales back to it |
| Formulae.SwapTerms | OpenGL-GR-Grav-Sim/src/formulae.cpp:26-40 | swapping the two bodies keeps every scalar term and negates `sep`, `v_bold` and `n_hat` |
| Formulae.PNAcceleration | OpenGL-GR-Grav-Sim/src/formulae.cpp:22-126 | `PN_acceleration` as the prefactor `mu / r^2` times the PN bracket with `c2`, `c4`, `c5`; its properties are stated in PNAccelerationAntisymmetric, NewtonianLimit and RadiationVanishesWithoutMassRatio, and the per-body split in Derivatives |
| Formulae.NewtonianMagnitude | OpenGL-GR-Grav-Sim/src/formulae.cpp:122 | the prefactor `g` satisfies `g r^2 == mu` |
| Formulae.CombineOdd | OpenGL-GR-Grav-Sim/src/formulae.cpp:59-122 | with the same scalars and negated `n_hat` and `v_bold`, the PN expression is negated |
| Formulae.PNAccelerationAntisymmetric | OpenGL-GR-Grav-Sim/src/formulae.cpp:22-126 | swapping `(pos1, v1, m1)` with `(pos2, v2, m2)` negates the relative acceleration, and the swapped inputs stay defined |
| Formulae.NewtonianLimit | OpenGL-GR-Grav-Sim/src/formulae.cpp:116-122 | with all correction coefficients zero, the acceleration is Newtonian: `(mu / r^2)(-n_hat)` |
| Formulae.RadiationVanishesWithoutMassRatio | OpenGL-GR-Grav-Sim/src/formulae.cpp:99-100 | the 2.5PN radiation-reaction term is zero when `eta` is zero |
| Formulae.ResolveRelAccel | OpenGL-GR-Grav-Sim/src/formulae.cpp:128-132 | the split conserves momentum (`m1 a1 + m2 a2 == 0`) and reconstructs the relative acceleration (`a1 - a2 == a_rel`); the two together fix the pair |
| Formulae.SplitBalances | OpenGL-GR-Grav-Sim/src/formulae.cpp:130-132 | per component, the mass-ratio split balances momentum and sums back to the relative value |
| Integration.TableauConsistent | OpenGL-GR-Grav-Sim/src/integration.cpp:19-27 | each stage row of the tableau sums to its node (1/5, 3/10, 4/5, 8/9, 1); both weight sets sum to one |
| Integration.Derivatives | OpenGL-GR-Grav-Sim/src/integration.cpp:48-67 | position rows of the derivative are the velocities; the acceleration rows balance momentum, and their difference is the PN relative acceleration |
| Integration.ErrScale | OpenGL-GR-Grav-Sim/src/integration.cpp:77 | the error scale is at least `atol`, so it is positive under valid tolerances |
| Integration.EntriesDetermine | OpenGL-GR-Grav-Sim/src/integration.cpp:75-76 | the twelve entries visited by the error-norm loops determine the matrix |
| Integration.ScaledDiffZeroIff | OpenGL-GR-Grav-Sim/src/integration.cpp:77-79 | one squared scaled difference is non-negative, and it is zero iff y4 and y5 agree on that entry |
| Integration.SumSqZeroIff | OpenGL-GR-Grav-Sim/src/integration.cpp:75-82 | each partial sum of squares is non-negative, and it is zero iff y4 and y5 agree on the entries it covers |
| Integration.ErrNorm | OpenGL-GR-Grav-Sim/src/integration.cpp:70-85 | the RMS error norm `sqrt(sum / 12)` over the twelve scaled differences; CalcErrNorm is proved equal to it, and ErrNormNonneg and ErrNormZeroIff state its properties |
| Integration.ErrNormNonneg | OpenGL-GR-Grav-Sim/src/integration.cpp:84 | the error norm is non-negative |
| Integration.ErrNormZeroIff | OpenGL-GR-Grav-Sim/src/integration.cpp:70-85 | the error norm is zero iff the fourth- and fifth-order solutions are equal |
| Integration.EntryAt | OpenGL-GR-Grav-Sim/src/integration.cpp:75-77 | entry `(i, j)` is entry `3 i + j` of the row-major visit order |
| Integration.SumSqStep | OpenGL-GR-Grav-Sim/src/integration.cpp:77-79 | visiting entry `(i, j)` adds its squared scaled difference to the running sum |
| Integration.CalcErrNorm | OpenGL-GR-Grav-Sim/src/integration.cpp:70-85 | the nested loops compute `sqrt(sum / 12)` of the squared scaled differences, i.e. the RMS error norm `ErrNorm` |
| Integration.Solve | OpenGL-GR-Grav-Sim/src/integration.cpp:90-121 | the seven Dormand–Prince stages and the fourth- and fifth-order solutions; ConstantFieldExact states what they give under a constant field |
| Integration.Substep | OpenGL-GR-Grav-Sim/src/integration.cpp:87-131 | `RK45_substep`: y5 with the error norm of `y5 - y4`; SubstepErrNonneg, StillFieldSubstep and ZeroFieldSubstep state its properties |
| Integration.SubstepErrNonneg | OpenGL-GR-Grav-Sim/src/integration.cpp:87-131 | every substep reports a non-negative error norm |
| Integration.ConstantFieldExact | OpenGL-GR-Grav-Sim/src/integration.cpp:90-121 | under a constant derivative field K, both embedded solutions equal `y + h K`, because both weight sets sum to one |
| Integration.StillFieldSubstep | OpenGL-GR-Grav-Sim/src/integration.cpp:87-131 | if a constant field's step leaves `y` in place, the substep returns `y` with error norm 0 |
| Integration.ZeroFieldSubstep | OpenGL-GR-Grav-Sim/src/integration.cpp:87-131 | if every stage slope is zero, the substep returns `y` itself with error norm 0 |
| Integration.StaysPut | OpenGL-GR-Grav-Sim/src/integration.cpp:95 | advancing along a zero slope leaves the state unchanged |
| Integration.AdaptFactor | OpenGL-GR-Grav-Sim/src/integration.cpp:170-171 | the adapt factor lies in `[minAdapt, maxAdapt] = [0.1, 5]` whatever `pow` returns |
| Integration.RescaleBetween | OpenGL-GR-Grav-Sim/src/integration.cpp:173 | a positive `h` times an admissible adapt factor lies between `0.1 h` and `5 h` |
| Integration.Next | OpenGL-GR-Grav-Sim/src/integration.cpp:152-175 | one iteration of the controller loop; StepSizeBounds, AcceptIffBelowTol and NextKeepsInv state its properties |
| Integration.Run | OpenGL-GR-Grav-Sim/src/integration.cpp:151-176 | the controller loop takes one substep per iteration and stops early only on its loop condition: the substep count grows by at most `fuel`, and by exactly `fuel` when the loop would still continue |
| Integration.StepSizeBounds | OpenGL-GR-Grav-Sim/src/integration.cpp:151-173 | the attempted step is positive, at most `h`, and never overshoots `total_dt`; the next `h` is between 0.1 and 5 times the attempted step |
| Integration.AcceptIffBelowTol | OpenGL-GR-Grav-Sim/src/integration.cpp:158-168 | a substep is accepted iff `err_norm < tol`; exactly then time advances, and the state becomes y5, otherwise it is kept |
| Integration.NextKeepsInv | OpenGL-GR-Grav-Sim/src/integration.cpp:151-176 | one iteration keeps the loop invariant: `h > 0`; `count == accepts + rejects`; `no_crash` iff fewer than 50 consecutive rejects; `0 <= intg_t <= total_dt` once a substep ran |
| Integration.RunKeepsInv | OpenGL-GR-Grav-Sim/src/integration.cpp:151-176 | any number of iterations keeps that invariant |
| Integration.RunKeepsStateWithoutAccept | OpenGL-GR-Grav-Sim/src/integration.cpp:156-168 | the accept counter never decreases; without an accepted substep, the returned state and time are the input's |
| Integration.RunFromInit | OpenGL-GR-Grav-Sim/src/integration.cpp:137-178 | from the entry state: the invariant holds on return; the crash flag is set iff 50 rejections came in a row; a loop that ends without a crash has integrated exactly `total_dt` |
| Integration.Control | OpenGL-GR-Grav-Sim/src/integration.cpp:137-176 | the imperative controller loop computes exactly `Run`, the functional controller, and reports whether its own loop condition ended it |
| Integration.RK45Integration.constructor | OpenGL-GR-Grav-Sim/src/integration.cpp:30-32 | stores `atol`, `rtol` and the initial step size; with positive tolerances and a positive step the object is valid (the only construction, main.cpp:481, passes 1e-8, 1e-10, 0.05) |
| Integration.RK45Integration.ProblemOf | OpenGL-GR-Grav-Sim/src/integration.cpp:124 | the substep built from this object's tolerances reports non-negative error norms |
| Integration.RK45Integration.RK45Integrate | OpenGL-GR-Grav-Sim/src/integration.cpp:133-185 | the result record is the controller's final state; the counters and crash flag are as above and `slip` is 0; the stored `timestep` becomes the final `h`, which stays positive |
| Integration.RK45Integration.Step | OpenGL-GR-Grav-Sim/src/integration.cpp:34-42 | integrates the back-buffer state over `physics_dt` with `tol = 1`; the only lasting effect is the new `timestep`, which stays positive |
| Bodies.SphereRadius | OpenGL-GR-Grav-Sim/include/celestial_body_class.h:19-26 | `calcSphereRadius`; SphereRadiusRule states its properties |
| Bodies.SphereRadiusRule | OpenGL-GR-Grav-Sim/include/celestial_body_class.h:19-26 | the radius is at least 0.5; it is exactly 0.5 iff the mass is at most one Earth mass (3.003e-6) |
| Bodies.CelestialBody.constructor | OpenGL-GR-Grav-Sim/include/celestial_body_class.h:14-35 | stores position and velocity; a non-positive mass becomes 1; the radius comes from the raw mass argument |
| Bodies.ConstructorRadiusOfRawMass | OpenGL-GR-Grav-Sim/include/celestial_body_class.h:17-35 | a body built from a non-positive mass has radius 0.5, smaller than the radius of a body of mass 1, which is the mass it gets |
| Bodies.CelestialBody.SetPos | OpenGL-GR-Grav-Sim/include/celestial_body_class.h:44 | sets the position; nothing else changes |
| Bodies.CelestialBody.SetVel | OpenGL-GR-Grav-Sim/include/celestial_body_class.h:45 | sets the velocity; nothing else changes |
| Bodies.CelestialBody.SetMass | OpenGL-GR-Grav-Sim/include/celestial_body_class.h:46-49 | sets the mass without a positivity check and recomputes the radius; position and velocity are unchanged |
| Simulation.RenderObject.constructor | OpenGL-GR-Grav-Sim/src/main.cpp:48-52 | stores the four fields |
| Simulation.RenderObject.Equals | OpenGL-GR-Grav-Sim/src/main.cpp:55-57 | `operator==`; RenderObjectEquality states its properties |
| Simulation.RenderObject.NotEquals | OpenGL-GR-Grav-Sim/src/main.cpp:59-61 | `operator!=`; RenderObjectEquality states it is the negation of `==` |
| Simulation.RenderObjectEquality | OpenGL-GR-Grav-Sim/src/main.cpp:55-61 | `==` is reflexive, symmetric and transitive; it ignores the body number; `!=` is its exact negation |
| Simulation.InputMass | OpenGL-GR-Grav-Sim/src/main.cpp:557-561 | a positive entry is stored and a non-positive one is rejected (the old mass stays), so a positive mass stays positive; other fields are unchanged |
| Simulation.BufferBox.constructor | OpenGL-GR-Grav-Sim/src/main.cpp:86-101 | the back buffer packs `[pos1, vel1, pos2, vel2]` with both masses at time 0, and the front bodies are in sync with it |
| Simulation.BufferBox.ChangeBuffers | OpenGL-GR-Grav-Sim/src/main.cpp:103-113 | copies the four back-buffer rows into the bodies' positions and velocities; masses and radii are unchanged; when the box was in sync, nothing changes |
| Simulation.BufferBox.ReadBackBuffer | OpenGL-GR-Grav-Sim/src/main.cpp:115 | returns the back buffer and changes nothing |
| Simulation.BufferBox.ReadFrontBuffer | OpenGL-GR-Grav-Sim/src/main.cpp:116 | returns the two body references and changes nothing |
| Simulation.BufferBox.PhysicsStateUpdate | OpenGL-GR-Grav-Sim/src/main.cpp:118-120 | replaces only the state matrix; the masses and the physics time are kept |
| Simulation.BufferBox.ApplyEdits | OpenGL-GR-Grav-Sim/src/main.cpp:122-143 | writes the edited state and masses into the back buffer (time kept) and into both bodies, with radii recomputed; for two distinct bodies, front and back are then in sync |
| Simulation.EditThenSwap | OpenGL-GR-Grav-Sim/src/main.cpp:103-143 | a buffer swap right after an edit leaves the bodies exactly as edited |
| Simulation.StepsWithRun | OpenGL-GR-Grav-Sim/src/integration.cpp:34-37 | for a problem `p` that `step` sets up for a state's masses, running the controller of `p` from that state is exactly the run of `step` on it (`StepRun`: `RK45_integrate` over one physics timestep with tolerance 1) |
| Simulation.StepAndPublish | OpenGL-GR-Grav-Sim/src/main.cpp:226-231 | one loop iteration: the result is `Report` of the controller run of `p` (the input's problem) from the input's state and the integrator's step size before the call, and the integrator keeps that run's final step size; the back buffer's state becomes the result, the bodies receive its rows (the second body always, the first when distinct), and masses and radii are kept |
| Simulation.RecordedAt | OpenGL-GR-Grav-Sim/src/main.cpp:224-227 | in a recorded sequence of steps, step `i` is the controller run from `inputs[i]` with step size `hs[i]`, and `hs[i]` is the step size step `i - 1` left behind |
| Simulation.ChainedAt | OpenGL-GR-Grav-Sim/src/main.cpp:224-227 | in a chained sequence, the first step starts from the back buffer and step `i` from the back buffer with step `i - 1`'s state |
| Simulation.PhysicsPass | OpenGL-GR-Grav-Sim/src/main.cpp:217-236 | for a non-negative accumulator it takes `floor(accum / physics_dt)` steps and leaves `0 <= accum < physics_dt`; every step runs the integrator of the masses of the back buffer read at the start of the pass on that same snapshot, the first from the integrator's stored step size and each later one from the step size the previous left (`Recorded`); the result is the last step's report and the back buffer's state becomes it, the bodies show its rows (the first body when distinct from the second); masses and radii are kept, and without a step the result and the bodies are unchanged; the integrator stays valid and keeps the last run's final step size, or its old step size when no step ran, for the next pass; the counters add the last result |
| Simulation.PhysicsPassRepeatsSnapshot | OpenGL-GR-Grav-Sim/src/main.cpp:217-232 | with two timesteps accumulated the pass takes two steps, and the back buffer ends as one step from the starting state: the `StepRun` from the old back buffer with the step size the first run left |
| Simulation.PhysicsPassChained | OpenGL-GR-Grav-Sim/src/main.cpp:217-236 | the corrected pass has the same step count, remainder, result, counters, integrator post-state (valid, with the last run's final step size or the old one when no step ran) and front-buffer post-state, and each step's input is the back buffer with the state the previous step returned (`Chained`), each step recorded as a controller run as in `PhysicsPass` |
| Simulation.PhysicsPassChainedTwoSteps | OpenGL-GR-Grav-Sim/src/main.cpp:217-232 | with two timesteps accumulated the corrected pass ends with the `StepRun` of the old back buffer advanced by the first `StepRun`, started from the step size the first left |

## Left out

- Floating point is not modelled: all arithmetic is over `real`. NaN and infinity from a zero separation or zero total mass are excluded by `Formulae.Defined`. `sqrt`, `pow` and `cbrt` are uninterpreted function values with only the facts in `Libm.Valid`.
- Integration.RK45Integration.RK45Integrate: it runs at most `fuel` substeps. The source loop has no bound and may not terminate if `h` underflows or accepts stall. `finished` reports whether the loop ended by its own condition.
- Integration.Control: this is the loop of `RK45_integrate` over a given substep, factored out of the method. The method builds the substep from its tolerances and calls it.
- Integration.RK45Integration.Step: the `physics_time += physics_dt` acts on a by-value copy, so it has no effect on the caller and is not part of the result.
- `integrate_result.avg_h` is left out. It is `tot_h / count`, and `tot_h` is never updated. `report[]` and the `debug` flag with its getter and setter are left out as diagnostics only. `slip` is always 0.
- The integer counters are unbounded `nat`/`int`. Within one call, `since_last_accept` stays at most 50. `count`, `accepts` and `rejects` are bounded only by the number of loop iterations, so they could overflow the source's 32-bit `int` only in a call that runs without end, which the model cuts off with `fuel`. The running totals in `physics_thread` could overflow after very long runs.
- The integrator is generic in its derivative function. Its controller properties hold for any derivative. `Integration.Derivatives` is partial over the reals.
- Integration.ZeroFieldSubstep: states the fixed-point property for a derivative that is zero everywhere, not for one that is zero only at the current state.
- The 2.5PN term follows the code, which adds the `(3 v^2 + 9 mu/r) v` term. The comment above it subtracts that term.
- The getters of `celestial_body` are not separate members. The model reads the fields directly, which is what the getters return.
- `celestial_body::print` and the `buffer_box` debug printers are left out as output only.
- Simulation.StepAndPublish: its contract names the controller run through a problem `p` with `StepsWith` rather than through `StepRun` directly, so that the substep is expanded only inside it; `StepsWithRun` turns it into `StepRun`. The same holds for the records of `PhysicsPass` and `PhysicsPassChained`.
- Simulation.BufferBox.ChangeBuffers: when both front pointers name the same body, the second body's rows win. The first body's rows are stated only for two distinct bodies, and the same holds for `ApplyEdits`.
- Threads, the mutex and condition variables, pausing, wall-clock timing (`glfwGetTime`, the sleep), the OpenGL rendering, the camera, the mouse buffer and the rest of the ImGui UI are left out. The elapsed time `delta` of a physics pass is a parameter.
- The undo/redo edit history is not implemented in the source files, so it is not part of this model.

## Findings

| source | as written | input that shows it | evidently intended | confidence | as-written member | corrected member |
|---|---|---|---|---|---|---|
| OpenGL-GR-Grav-Sim/src/main.cpp:217-232 | the back buffer is read once before the accumulator loop, and every step of the loop integrates that same snapshot | accumulator 0 and `delta = 2 * physics_dt`: two steps run from the same state; the second step's result overwrites the first, so the simulation advances by one step while two timesteps are consumed | each step continues from the state the previous step wrote to the back buffer | medium; not executed | Simulation.PhysicsPassRepeatsSnapshot | Simulation.PhysicsPassChainedTwoSteps |
