/** The simulation's state exchange: the double buffer between the physics
    thread and the renderer, the editable copies of the bodies shown in the
    UI with their mass guard, and the fixed-timestep accumulator of the
    physics thread. */
module Simulation {
  import opened Vectors
  import opened MathLib
  import opened Integration
  import opened Bodies

  /** The fixed physics timestep in years. */
  const PhysicsDt: real := 0.033

  /** `render_object`: the UI's editable copy of one body. */
  class RenderObject {
    var pos: Vec3
    var vel: Vec3
    var mass: real
    var bodyNum: int

    constructor(pos: Vec3, vel: Vec3, mass: real, bodyNum: int)
      ensures this.pos == pos && this.vel == vel && this.mass == mass && this.bodyNum == bodyNum
    {
      this.pos := pos;
      this.vel := vel;
      this.mass := mass;
      this.bodyNum := bodyNum;
    }

    /** `operator==`: position, velocity and mass agree. */
    predicate Equals(other: RenderObject)
      reads this, other
    {
      pos == other.pos && vel == other.vel && mass == other.mass
    }

    /** `operator!=`, defined through `operator==`. */
    predicate NotEquals(other: RenderObject)
      reads this, other
    {
      !Equals(other)
    }
  }

  /** `==` is an equivalence, it does not look at the body number, and `!=`
      is its exact negation. */
  lemma RenderObjectEquality(a: RenderObject, b: RenderObject, c: RenderObject)
    ensures a.Equals(a)
    ensures a.Equals(b) ==> b.Equals(a)
    ensures a.Equals(b) && b.Equals(c) ==> a.Equals(c)
    ensures a.pos == b.pos && a.vel == b.vel && a.mass == b.mass ==> a.Equals(b)
    ensures a.NotEquals(b) <==> !a.Equals(b)
  {
  }

  /** The mass field of `ImGui_Input_Fields`: the input widget writes the
      entered value into the object, and a value that is not positive is
      replaced by the mass the object had before. */
  method InputMass(obj: RenderObject, entered: real)
    modifies obj
    ensures 0.0 < entered ==> obj.mass == entered
    ensures entered <= 0.0 ==> obj.mass == old(obj.mass)
    ensures 0.0 < old(obj.mass) ==> 0.0 < obj.mass
    ensures obj.pos == old(obj.pos) && obj.vel == old(obj.vel) && obj.bodyNum == old(obj.bodyNum)
  {
    var lastMass := obj.mass;
    obj.mass := entered;
    if obj.mass <= 0.0 {
      obj.mass := lastMass;
    }
  }

  /** `buffer_box`: the back buffer the physics thread integrates and the
      two bodies (the front buffer) the renderer draws. */
  class BufferBox {
    var back: MathState
    const b1: CelestialBody
    const b2: CelestialBody

    /** The front bodies show exactly the back buffer's positions,
        velocities and masses. */
    predicate InSync()
      reads this, b1, b2
    {
      && b1.pos == back.y.r0 && b1.vel == back.y.r1
      && b2.pos == back.y.r2 && b2.vel == back.y.r3
      && b1.mass == back.m1 && b2.mass == back.m2
    }

    /** `bufferSet`: packs both bodies into the back buffer at time 0. */
    constructor(body1: CelestialBody, body2: CelestialBody)
      ensures b1 == body1 && b2 == body2
      ensures back == MathState(Mat43(body1.pos, body1.vel, body2.pos, body2.vel), body1.mass, body2.mass, 0.0)
      ensures InSync()
    {
      b1 := body1;
      b2 := body2;
      back := MathState(Mat43(body1.pos, body1.vel, body2.pos, body2.vel), body1.mass, body2.mass, 0.0);
    }

    /** `changeBuffers`: copies the four rows of the back buffer into the
        positions and velocities of the bodies; nothing else changes. When
        the two bodies are one object, the second body's rows win. */
    method ChangeBuffers()
      modifies b1, b2
      ensures b2.pos == back.y.r2 && b2.vel == back.y.r3
      ensures b1 != b2 ==> b1.pos == back.y.r0 && b1.vel == back.y.r1
      ensures b1.mass == old(b1.mass) && b1.radius == old(b1.radius)
      ensures b2.mass == old(b2.mass) && b2.radius == old(b2.radius)
      ensures old(InSync()) ==> b1.pos == old(b1.pos) && b1.vel == old(b1.vel)
      ensures old(InSync()) ==> b2.pos == old(b2.pos) && b2.vel == old(b2.vel)
    {
      var y := back.y;
      b1.SetPos(y.r0);
      b1.SetVel(y.r1);
      b2.SetPos(y.r2);
      b2.SetVel(y.r3);
    }

    /** `readBackBuffer`: a copy of the back buffer. */
    method ReadBackBuffer() returns (s: MathState)
      ensures s == back
    {
      s := back;
    }

    /** `readFrontBuffer`: the two body references. */
    method ReadFrontBuffer() returns (front: (CelestialBody, CelestialBody))
      ensures front == (b1, b2)
    {
      front := (b1, b2);
    }

    /** `physicsStateUpdate`: replaces the state matrix only. */
    method PhysicsStateUpdate(state: Mat43)
      modifies this
      ensures back == old(back).(y := state)
    {
      back := back.(y := state);
    }

    /** `applyEdits`: writes the edited state and masses into the back
        buffer and into both bodies (masses first, which also resizes them).
        Afterwards, for two distinct bodies, front and back agree. */
    method ApplyEdits(pos1: Vec3, vel1: Vec3, pos2: Vec3, vel2: Vec3, m1: real, m2: real, cbrt: real -> real)
      modifies this, b1, b2
      ensures back == MathState(Mat43(pos1, vel1, pos2, vel2), m1, m2, old(back.physicsTime))
      ensures b2.pos == pos2 && b2.vel == vel2 && b2.mass == m2 && b2.radius == SphereRadius(m2, cbrt)
      ensures b1 != b2 ==> b1.pos == pos1 && b1.vel == vel1 && b1.mass == m1 && b1.radius == SphereRadius(m1, cbrt)
      ensures b1 != b2 ==> InSync()
    {
      back := back.(y := Mat43(pos1, vel1, pos2, vel2), m1 := m1, m2 := m2);
      b1.SetMass(m1, cbrt);
      b2.SetMass(m2, cbrt);
      b1.SetPos(pos1);
      b1.SetVel(vel1);
      b2.SetPos(pos2);
      b2.SetVel(vel2);
    }
  }

  /** Applying edits and then swapping buffers leaves the bodies exactly as
      the edits set them: the swap after an edit changes nothing. */
  method EditThenSwap(box: BufferBox, pos1: Vec3, vel1: Vec3, pos2: Vec3, vel2: Vec3, m1: real, m2: real, cbrt: real -> real)
    requires box.b1 != box.b2
    modifies box, box.b1, box.b2
    ensures box.InSync()
    ensures box.b1.pos == pos1 && box.b1.vel == vel1 && box.b1.mass == m1
    ensures box.b2.pos == pos2 && box.b2.vel == vel2 && box.b2.mass == m2
  {
    box.ApplyEdits(pos1, vel1, pos2, vel2, m1, m2, cbrt);
    box.ChangeBuffers();
  }

  /** The controller run of one `step` call on `input` over one physics
      timestep, starting from the integrator's stored step size `h0`:
      `Report` of it is the call's result and its final `h` the step size
      stored for the next call. It depends only on the integrator's constant
      tolerances, so it does not change when the heap does. */
  ghost function StepRun(integrator: RK45Integration, deriv: (Mat43, real, real) -> Mat43, lib: Libm,
                         input: MathState, h0: real, fuel: nat): Ctl
    requires integrator.TolValid() && lib.Valid()
  {
    Run(integrator.ProblemOf(deriv, input.m1, input.m2, lib, PhysicsDt, StepTol), Init(input.y, h0), fuel)
  }

  /** `p` is the controller problem `step` sets up for every state with masses
      `m1` and `m2`. It is stated over those states, with the set-up as the
      trigger, so that the substep inside `p` is expanded only where such a
      state is actually stepped. */
  ghost predicate StepsWith(integrator: RK45Integration, deriv: (Mat43, real, real) -> Mat43, lib: Libm,
                            m1: real, m2: real, p: Problem)
    requires integrator.TolValid()
  {
    forall s: MathState {:trigger integrator.ProblemOf(deriv, s.m1, s.m2, lib, PhysicsDt, StepTol)} ::
      s.m1 == m1 && s.m2 == m2 ==> integrator.ProblemOf(deriv, s.m1, s.m2, lib, PhysicsDt, StepTol) == p
  }

  /** The problem of a state's masses exists and satisfies the controller's
      precondition. */
  lemma ProblemFor(integrator: RK45Integration, deriv: (Mat43, real, real) -> Mat43, lib: Libm, s: MathState)
    returns (p: Problem)
    requires integrator.TolValid() && lib.Valid()
    ensures p.Ok() && StepsWith(integrator, deriv, lib, s.m1, s.m2, p)
  {
    p := integrator.ProblemOf(deriv, s.m1, s.m2, lib, PhysicsDt, StepTol);
  }

  /** Under `StepsWith`, running the controller of `p` from a state with
      those masses is the step's run. */
  lemma StepsWithRun(integrator: RK45Integration, deriv: (Mat43, real, real) -> Mat43, lib: Libm,
                     p: Problem, s: MathState, h0: real, fuel: nat)
    requires integrator.TolValid() && lib.Valid() && p.Ok()
    requires StepsWith(integrator, deriv, lib, s.m1, s.m2, p)
    ensures Run(p, Init(s.y, h0), fuel) == StepRun(integrator, deriv, lib, s, h0, fuel)
  {
    assert integrator.ProblemOf(deriv, s.m1, s.m2, lib, PhysicsDt, StepTol) == p;
  }

  /** `runs[i]` is the run of the controller loop of `p` from `inputs[i]`
      with stored step size `hs[i]`, and each step starts from the step size
      the previous one left behind. */
  ghost predicate Recorded(p: Problem, inputs: seq<MathState>, hs: seq<real>, runs: seq<Ctl>, fuel: nat)
    requires p.Ok()
    decreases |runs|
  {
    && |inputs| == |runs| && |hs| == |runs|
    && (|runs| == 0 ||
        var n := |runs| - 1;
        && Recorded(p, inputs[..n], hs[..n], runs[..n], fuel)
        && runs[n] == Run(p, Init(inputs[n].y, hs[n]), fuel)
        && (0 < n ==> hs[n] == runs[n - 1].h))
  }

  /** Recording one more step that starts where the last one left off. */
  lemma RecordedAppend(p: Problem, inputs: seq<MathState>, hs: seq<real>, runs: seq<Ctl>, fuel: nat,
                       input: MathState, h: real, c: Ctl)
    requires p.Ok() && Recorded(p, inputs, hs, runs, fuel)
    requires c == Run(p, Init(input.y, h), fuel)
    requires 0 < |runs| ==> h == runs[|runs| - 1].h
    ensures Recorded(p, inputs + [input], hs + [h], runs + [c], fuel)
  {
    assert (inputs + [input])[..|runs|] == inputs;
    assert (hs + [h])[..|runs|] == hs;
    assert (runs + [c])[..|runs|] == runs;
  }

  /** Reading one entry of the record: step i is the controller run from
      `inputs[i]` with step size `hs[i]`, which is the previous run's final
      step size. */
  lemma {:induction false} RecordedAt(p: Problem, inputs: seq<MathState>, hs: seq<real>, runs: seq<Ctl>,
                                      fuel: nat, i: nat)
    requires p.Ok() && Recorded(p, inputs, hs, runs, fuel)
    requires i < |runs|
    ensures runs[i] == Run(p, Init(inputs[i].y, hs[i]), fuel)
    ensures 0 < i ==> hs[i] == runs[i - 1].h
    decreases |runs|
  {
    var n := |runs| - 1;
    if i < n {
      RecordedAt(p, inputs[..n], hs[..n], runs[..n], fuel, i);
    }
  }

  /** Each step after the first starts from the back buffer `start` with the
      state the previous step produced. */
  ghost predicate Chained(start: MathState, inputs: seq<MathState>, runs: seq<Ctl>)
    decreases |runs|
  {
    && |inputs| == |runs|
    && (|runs| == 0 ||
        var n := |runs| - 1;
        && Chained(start, inputs[..n], runs[..n])
        && inputs[n] == (if n == 0 then start else start.(y := runs[n - 1].state)))
  }

  /** Chaining one more step from the last step's state. */
  lemma ChainedAppend(start: MathState, inputs: seq<MathState>, runs: seq<Ctl>, input: MathState, c: Ctl)
    requires Chained(start, inputs, runs)
    requires input == (if |runs| == 0 then start else start.(y := runs[|runs| - 1].state))
    ensures Chained(start, inputs + [input], runs + [c])
  {
    assert (inputs + [input])[..|runs|] == inputs;
    assert (runs + [c])[..|runs|] == runs;
  }

  /** Reading one entry of the chain. */
  lemma {:induction false} ChainedAt(start: MathState, inputs: seq<MathState>, runs: seq<Ctl>, i: nat)
    requires Chained(start, inputs, runs)
    requires i < |runs|
    ensures inputs[i] == (if i == 0 then start else start.(y := runs[i - 1].state))
    decreases |runs|
  {
    var n := |runs| - 1;
    if i < n {
      ChainedAt(start, inputs[..n], runs[..n], i);
    }
  }

  /** The body of the accumulator loop: step the integrator from `input`,
      store the result as the back buffer's state and copy it to the bodies. */
  method StepAndPublish(box: BufferBox, integrator: RK45Integration, deriv: (Mat43, real, real) -> Mat43, lib: Libm,
                        input: MathState, fuel: nat, ghost p: Problem)
    returns (result: IntegrateResult)
    requires integrator.Valid() && lib.Valid()
    requires p.Ok() && StepsWith(integrator, deriv, lib, input.m1, input.m2, p)
    modifies box, box.b1, box.b2, integrator
    ensures integrator.Valid()
    ensures var c := Run(p, Init(input.y, old(integrator.timestep)), fuel);
      result == Report(c) && integrator.timestep == c.h
    ensures box.back == old(box.back).(y := result.stateY)
    ensures box.b1.mass == old(box.b1.mass) && box.b1.radius == old(box.b1.radius)
    ensures box.b2.mass == old(box.b2.mass) && box.b2.radius == old(box.b2.radius)
    ensures box.b2.pos == box.back.y.r2 && box.b2.vel == box.back.y.r3
    ensures box.b1 != box.b2 ==> box.b1.pos == box.back.y.r0 && box.b1.vel == box.back.y.r1
  {
    var finished;
    result, finished := integrator.Step(deriv, input, PhysicsDt, lib, fuel);
    box.PhysicsStateUpdate(result.stateY);
    box.ChangeBuffers();
  }

  /** One pass of the fixed-timestep loop of `physics_thread`: the elapsed
      time is added to the accumulator, and while a whole timestep is
      available the integrator steps the back buffer snapshot read at the
      start of the pass, the result becomes the back buffer's state and is
      copied to the bodies. The substep counters of the last result are then
      added to the running totals, the previous pass's result when no step
      was taken. Step i integrates `inputs[i]` from the stored step size
      `hs[i]`, and `runs[i]` is its controller run. */
  method PhysicsPass(box: BufferBox, integrator: RK45Integration, deriv: (Mat43, real, real) -> Mat43, lib: Libm,
                     accum: real, delta: real, prev: IntegrateResult, totals: (int, int, int), fuel: nat)
    returns (accumOut: real, steps: nat, result: IntegrateResult, totalsOut: (int, int, int),
             ghost inputs: seq<MathState>, ghost hs: seq<real>, ghost runs: seq<Ctl>, ghost p: Problem)
    requires integrator.Valid() && lib.Valid()
    modifies box, box.b1, box.b2, integrator
    ensures accumOut < PhysicsDt
    ensures accumOut + (steps as real) * PhysicsDt == accum + delta
    ensures 0.0 <= accum + delta ==> 0.0 <= accumOut && steps == ((accum + delta) / PhysicsDt).Floor
    ensures |inputs| == steps && |hs| == steps && |runs| == steps
    ensures forall i :: 0 <= i < |inputs| ==> inputs[i] == old(box.back)
    ensures p.Ok() && StepsWith(integrator, deriv, lib, old(box.back).m1, old(box.back).m2, p)
    ensures Recorded(p, inputs, hs, runs, fuel)
    ensures 0 < steps ==> hs[0] == old(integrator.timestep)
    ensures steps == 0 ==> result == prev && box.back == old(box.back)
    ensures 0 < steps ==> result == Report(runs[steps - 1]) && box.back == old(box.back).(y := result.stateY)
    ensures box.b1.mass == old(box.b1.mass) && box.b1.radius == old(box.b1.radius)
    ensures box.b2.mass == old(box.b2.mass) && box.b2.radius == old(box.b2.radius)
    ensures 0 < steps ==> box.b2.pos == box.back.y.r2 && box.b2.vel == box.back.y.r3
    ensures 0 < steps && box.b1 != box.b2 ==> box.b1.pos == box.back.y.r0 && box.b1.vel == box.back.y.r1
    ensures steps == 0 ==> box.b1.pos == old(box.b1.pos) && box.b1.vel == old(box.b1.vel)
    ensures steps == 0 ==> box.b2.pos == old(box.b2.pos) && box.b2.vel == old(box.b2.vel)
    ensures integrator.Valid()
    ensures steps == 0 ==> integrator.timestep == old(integrator.timestep)
    ensures 0 < steps ==> integrator.timestep == runs[steps - 1].h
    ensures totalsOut == (totals.0 + result.count, totals.1 + result.accepts, totals.2 + result.rejects)
  {
    var snapshot := box.ReadBackBuffer();
    ghost var h0 := integrator.timestep;
    p := ProblemFor(integrator, deriv, lib, snapshot);
    accumOut := accum + delta;
    steps := 0;
    result := prev;
    inputs, hs, runs := [], [], [];
    while accumOut >= PhysicsDt
      invariant accumOut + (steps as real) * PhysicsDt == accum + delta
      invariant 0.0 <= accum + delta ==> 0.0 <= accumOut
      invariant integrator.Valid()
      invariant |inputs| == steps && |hs| == steps && |runs| == steps
      invariant forall i :: 0 <= i < |inputs| ==> inputs[i] == snapshot
      invariant Recorded(p, inputs, hs, runs, fuel)
      invariant 0 < steps ==> hs[0] == h0
      invariant steps == 0 ==> integrator.timestep == h0
      invariant 0 < steps ==> integrator.timestep == runs[steps - 1].h
      invariant steps == 0 ==> result == prev && box.back == snapshot
      invariant 0 < steps ==> result == Report(runs[steps - 1]) && box.back == snapshot.(y := result.stateY)
      invariant box.b1.mass == old(box.b1.mass) && box.b1.radius == old(box.b1.radius)
      invariant box.b2.mass == old(box.b2.mass) && box.b2.radius == old(box.b2.radius)
      invariant 0 < steps ==> box.b2.pos == box.back.y.r2 && box.b2.vel == box.back.y.r3
      invariant 0 < steps && box.b1 != box.b2 ==> box.b1.pos == box.back.y.r0 && box.b1.vel == box.back.y.r1
      invariant steps == 0 ==> box.b1.pos == old(box.b1.pos) && box.b1.vel == old(box.b1.vel)
      invariant steps == 0 ==> box.b2.pos == old(box.b2.pos) && box.b2.vel == old(box.b2.vel)
      decreases ((accum + delta) / PhysicsDt).Floor - steps
    {
      FloorAbove(accum + delta, PhysicsDt, steps);
      accumOut := accumOut - PhysicsDt;
      ghost var h := integrator.timestep;
      ghost var c := Run(p, Init(snapshot.y, h), fuel);
      result := StepAndPublish(box, integrator, deriv, lib, snapshot, fuel, p);
      RecordedAppend(p, inputs, hs, runs, fuel, snapshot, h, c);
      inputs, hs, runs := inputs + [snapshot], hs + [h], runs + [c];
      steps := steps + 1;
    }
    if 0.0 <= accum + delta {
      FloorOfQuotient(accum + delta, PhysicsDt, steps, accumOut);
    }
    totalsOut := (totals.0 + result.count, totals.1 + result.accepts, totals.2 + result.rejects);
  }

  /** With exactly two timesteps in the accumulator the pass takes two steps,
      both from the state read at the start of the pass: afterwards the back
      buffer holds the result of a single step from that state (taken with
      the step size the first step left behind), although two timesteps were
      consumed. */
  method PhysicsPassRepeatsSnapshot(box: BufferBox, integrator: RK45Integration, deriv: (Mat43, real, real) -> Mat43,
                                    lib: Libm, prev: IntegrateResult, totals: (int, int, int), fuel: nat)
    returns (steps: nat)
    requires integrator.Valid() && lib.Valid()
    modifies box, box.b1, box.b2, integrator
    ensures steps == 2
    ensures var first := StepRun(integrator, deriv, lib, old(box.back), old(integrator.timestep), fuel);
      box.back == old(box.back).(y := Report(StepRun(integrator, deriv, lib, old(box.back), first.h, fuel)).stateY)
  {
    var accumOut, result, totalsOut;
    ghost var inputs, hs, runs, p;
    accumOut, steps, result, totalsOut, inputs, hs, runs, p :=
      PhysicsPass(box, integrator, deriv, lib, 0.0, 2.0 * PhysicsDt, prev, totals, fuel);
    FloorOfQuotient(2.0 * PhysicsDt, PhysicsDt, 2, 0.0);
    RecordedAt(p, inputs, hs, runs, fuel, 0);
    RecordedAt(p, inputs, hs, runs, fuel, 1);
    StepsWithRun(integrator, deriv, lib, p, old(box.back), hs[0], fuel);
    StepsWithRun(integrator, deriv, lib, p, old(box.back), hs[1], fuel);
  }

  /** The pass as evidently intended: each step reads the back buffer again,
      so it continues from the state the previous step wrote. */
  method PhysicsPassChained(box: BufferBox, integrator: RK45Integration, deriv: (Mat43, real, real) -> Mat43, lib: Libm,
                            accum: real, delta: real, prev: IntegrateResult, totals: (int, int, int), fuel: nat)
    returns (accumOut: real, steps: nat, result: IntegrateResult, totalsOut: (int, int, int),
             ghost inputs: seq<MathState>, ghost hs: seq<real>, ghost runs: seq<Ctl>, ghost p: Problem)
    requires integrator.Valid() && lib.Valid()
    modifies box, box.b1, box.b2, integrator
    ensures accumOut < PhysicsDt
    ensures accumOut + (steps as real) * PhysicsDt == accum + delta
    ensures 0.0 <= accum + delta ==> 0.0 <= accumOut && steps == ((accum + delta) / PhysicsDt).Floor
    ensures |inputs| == steps && |hs| == steps && |runs| == steps
    ensures Chained(old(box.back), inputs, runs)
    ensures p.Ok() && StepsWith(integrator, deriv, lib, old(box.back).m1, old(box.back).m2, p)
    ensures Recorded(p, inputs, hs, runs, fuel)
    ensures 0 < steps ==> hs[0] == old(integrator.timestep)
    ensures steps == 0 ==> result == prev && box.back == old(box.back)
    ensures 0 < steps ==> result == Report(runs[steps - 1]) && box.back == old(box.back).(y := result.stateY)
    ensures box.b1.mass == old(box.b1.mass) && box.b1.radius == old(box.b1.radius)
    ensures box.b2.mass == old(box.b2.mass) && box.b2.radius == old(box.b2.radius)
    ensures 0 < steps ==> box.b2.pos == box.back.y.r2 && box.b2.vel == box.back.y.r3
    ensures 0 < steps && box.b1 != box.b2 ==> box.b1.pos == box.back.y.r0 && box.b1.vel == box.back.y.r1
    ensures steps == 0 ==> box.b1.pos == old(box.b1.pos) && box.b1.vel == old(box.b1.vel)
    ensures steps == 0 ==> box.b2.pos == old(box.b2.pos) && box.b2.vel == old(box.b2.vel)
    ensures integrator.Valid()
    ensures steps == 0 ==> integrator.timestep == old(integrator.timestep)
    ensures 0 < steps ==> integrator.timestep == runs[steps - 1].h
    ensures totalsOut == (totals.0 + result.count, totals.1 + result.accepts, totals.2 + result.rejects)
  {
    ghost var start := box.back;
    ghost var h0 := integrator.timestep;
    p := ProblemFor(integrator, deriv, lib, start);
    accumOut := accum + delta;
    steps := 0;
    result := prev;
    inputs, hs, runs := [], [], [];
    while accumOut >= PhysicsDt
      invariant accumOut + (steps as real) * PhysicsDt == accum + delta
      invariant 0.0 <= accum + delta ==> 0.0 <= accumOut
      invariant integrator.Valid()
      invariant |inputs| == steps && |hs| == steps && |runs| == steps
      invariant Chained(start, inputs, runs)
      invariant Recorded(p, inputs, hs, runs, fuel)
      invariant 0 < steps ==> hs[0] == h0
      invariant steps == 0 ==> integrator.timestep == h0
      invariant 0 < steps ==> integrator.timestep == runs[steps - 1].h
      invariant steps == 0 ==> result == prev && box.back == start
      invariant 0 < steps ==> result == Report(runs[steps - 1]) && box.back == start.(y := result.stateY)
      invariant box.b1.mass == old(box.b1.mass) && box.b1.radius == old(box.b1.radius)
      invariant box.b2.mass == old(box.b2.mass) && box.b2.radius == old(box.b2.radius)
      invariant 0 < steps ==> box.b2.pos == box.back.y.r2 && box.b2.vel == box.back.y.r3
      invariant 0 < steps && box.b1 != box.b2 ==> box.b1.pos == box.back.y.r0 && box.b1.vel == box.back.y.r1
      invariant steps == 0 ==> box.b1.pos == old(box.b1.pos) && box.b1.vel == old(box.b1.vel)
      invariant steps == 0 ==> box.b2.pos == old(box.b2.pos) && box.b2.vel == old(box.b2.vel)
      decreases ((accum + delta) / PhysicsDt).Floor - steps
    {
      FloorAbove(accum + delta, PhysicsDt, steps);
      accumOut := accumOut - PhysicsDt;
      var current := box.ReadBackBuffer();
      ghost var h := integrator.timestep;
      ghost var c := Run(p, Init(current.y, h), fuel);
      result := StepAndPublish(box, integrator, deriv, lib, current, fuel, p);
      RecordedAppend(p, inputs, hs, runs, fuel, current, h, c);
      ChainedAppend(start, inputs, runs, current, c);
      inputs, hs, runs := inputs + [current], hs + [h], runs + [c];
      steps := steps + 1;
    }
    if 0.0 <= accum + delta {
      FloorOfQuotient(accum + delta, PhysicsDt, steps, accumOut);
    }
    totalsOut := (totals.0 + result.count, totals.1 + result.accepts, totals.2 + result.rejects);
  }

  /** The intended pass over two timesteps: the second step continues from
      the state the first one produced, with the step size it left behind. */
  method PhysicsPassChainedTwoSteps(box: BufferBox, integrator: RK45Integration, deriv: (Mat43, real, real) -> Mat43,
                                    lib: Libm, prev: IntegrateResult, totals: (int, int, int), fuel: nat)
    returns (steps: nat)
    requires integrator.Valid() && lib.Valid()
    modifies box, box.b1, box.b2, integrator
    ensures steps == 2
    ensures var first := StepRun(integrator, deriv, lib, old(box.back), old(integrator.timestep), fuel);
      var second := StepRun(integrator, deriv, lib, old(box.back).(y := first.state), first.h, fuel);
      box.back == old(box.back).(y := Report(second).stateY)
  {
    var accumOut, result, totalsOut;
    ghost var inputs, hs, runs, p;
    accumOut, steps, result, totalsOut, inputs, hs, runs, p :=
      PhysicsPassChained(box, integrator, deriv, lib, 0.0, 2.0 * PhysicsDt, prev, totals, fuel);
    FloorOfQuotient(2.0 * PhysicsDt, PhysicsDt, 2, 0.0);
    ChainedAt(old(box.back), inputs, runs, 0);
    ChainedAt(old(box.back), inputs, runs, 1);
    RecordedAt(p, inputs, hs, runs, fuel, 0);
    RecordedAt(p, inputs, hs, runs, fuel, 1);
    StepsWithRun(integrator, deriv, lib, p, inputs[0], hs[0], fuel);
    StepsWithRun(integrator, deriv, lib, p, inputs[1], hs[1], fuel);
  }
}
